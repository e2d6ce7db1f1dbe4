/** nao_showgame_v2: one screen with the three fixed platforms plus a lift
    that moves up and down, two patrolling enemies whose touch sends the
    player back to the spawn point, audience keys, fall detection and a
    one-shot level-complete applause. */
module GameV2 {
  import opened Geometry
  import opened Reactions
  import opened Physics
  import opened Oscillators
  import FallWatch
  import Stage

  const FallThreshold: int := 6
  /** Enemies are plain 40 x 40 squares. */
  const EnemySize: Size := Size(40, 40)

  /** Keeps the player's left edge inside the window: the nearest x in
      [0, Width - w]. */
  function Clamp(x: int, w: int): (r: int)
    ensures w <= Width ==> 0 <= r <= Width - w
    ensures w <= Width && 0 <= x <= Width - w ==> r == x
    ensures w <= Width ==> forall y :: 0 <= y <= Width - w ==> Distance(r, x) <= Distance(y, x)
  {
    if Width - w < x then (if Width - w < 0 then 0 else Width - w)
    else if x < 0 then 0 else x
  }

  function Distance(a: int, b: int): int
  {
    Abs(a - b)
  }

  /** MovingPlatform: a rectangle patrolling vertically around `startY`; it also
      carries a horizontal offset `moveX` that is handed to riders (always 0 in
      this game). */
  datatype Lift = Lift(rect: Rect, startY: int, moveX: int, moveY: int, rangeY: int)

  /** MovingPlatform.update: moves vertically and reverses once more than
      `rangeY` away from the start; the speed magnitude and x never change. */
  function LiftUpdate(l: Lift): (r: Lift)
    ensures r.rect.x == l.rect.x && r.rect.w == l.rect.w && r.rect.h == l.rect.h
    ensures r.rect.y == l.rect.y + l.moveY
    ensures Abs(r.moveY) == Abs(l.moveY)
    ensures r.moveY == (if Abs(r.rect.y - l.startY) > l.rangeY then -l.moveY else l.moveY)
    ensures PatrolInv(Swing(l.rect.y, l.moveY), l.startY, l.rangeY) ==>
              PatrolInv(Swing(r.rect.y, r.moveY), r.startY, r.rangeY)
  {
    var s := Patrol(Swing(l.rect.y, l.moveY), l.startY, l.rangeY);
    assert PatrolInv(Swing(l.rect.y, l.moveY), l.startY, l.rangeY) ==> PatrolInv(s, l.startY, l.rangeY) by {
      if PatrolInv(Swing(l.rect.y, l.moveY), l.startY, l.rangeY) {
        PatrolInvStep(Swing(l.rect.y, l.moveY), l.startY, l.rangeY);
      }
    }
    l.(rect := l.rect.(y := s.pos), moveY := s.dir)
  }

  /** Enemy: a 40 x 40 square patrolling horizontally around `startX`. */
  datatype Enemy = Enemy(rect: Rect, startX: int, rangeX: int, speed: int)

  /** Enemy.update: moves by its speed and reverses once more than `rangeX`
      from the start; the speed magnitude never changes. */
  function EnemyUpdate(e: Enemy): (r: Enemy)
    ensures r.rect == e.rect.(x := e.rect.x + e.speed)
    ensures Abs(r.speed) == Abs(e.speed)
    ensures r.speed == (if Abs(r.rect.x - e.startX) > e.rangeX then -e.speed else e.speed)
    ensures PatrolInv(Swing(e.rect.x, e.speed), e.startX, e.rangeX) ==>
              PatrolInv(Swing(r.rect.x, r.speed), r.startX, r.rangeX)
  {
    var s := Patrol(Swing(e.rect.x, e.speed), e.startX, e.rangeX);
    assert PatrolInv(Swing(e.rect.x, e.speed), e.startX, e.rangeX) ==> PatrolInv(s, e.startX, e.rangeX) by {
      if PatrolInv(Swing(e.rect.x, e.speed), e.startX, e.rangeX) {
        PatrolInvStep(Swing(e.rect.x, e.speed), e.startX, e.rangeX);
      }
    }
    e.(rect := e.rect.(x := s.pos), speed := s.dir)
  }

  /** Riding one lift: stand on its top, then move along with it. */
  function Board(rect: Rect, l: Lift): (r: Rect)
    ensures r.x == rect.x + l.moveX
    ensures r.Bottom() == l.rect.y + l.moveY
    ensures r.w == rect.w && r.h == rect.h
  {
    var s := WithBottom(rect, l.rect.y);
    s.(x := s.x + l.moveX, y := s.y + l.moveY)
  }

  /** The second landing loop, over the lifts: each lift in turn that the
      player overlaps while not rising is boarded. */
  function Ride(rect: Rect, velY: int, lifts: seq<Lift>): (r: Landing)
    decreases |lifts|
    ensures r.rect.w == rect.w && r.rect.h == rect.h
    ensures r.onGround <==> r.landings > 0
    ensures r.onGround <==> velY >= 0 && exists i :: 0 <= i < |lifts| && Collides(rect, lifts[i].rect)
    ensures r.velY == (if r.onGround then 0 else velY)
    ensures !r.onGround ==> r.rect == rect
    ensures r.onGround ==> exists i :: 0 <= i < |lifts| && r.rect.Bottom() == lifts[i].rect.y + lifts[i].moveY
    ensures (forall i :: 0 <= i < |lifts| ==> lifts[i].moveX == 0) ==> r.rect.x == rect.x
  {
    if |lifts| == 0 then Landing(rect, velY, false, 0)
    else if Collides(rect, lifts[0].rect) && velY >= 0 then
      var rest := Ride(Board(rect, lifts[0]), 0, lifts[1..]);
      assert rest.onGround ==> exists i :: 0 <= i < |lifts| && rest.rect.Bottom() == lifts[i].rect.y + lifts[i].moveY by {
        if rest.onGround {
          var j :| 0 <= j < |lifts[1..]| && rest.rect.Bottom() == lifts[1..][j].rect.y + lifts[1..][j].moveY;
          assert lifts[j + 1] == lifts[1..][j];
        }
      }
      Landing(rest.rect, rest.velY, true, rest.landings + 1)
    else
      var rest := Ride(rect, velY, lifts[1..]);
      assert rest.onGround ==> exists i :: 0 <= i < |lifts| && rest.rect.Bottom() == lifts[i].rect.y + lifts[i].moveY by {
        if rest.onGround {
          var j :| 0 <= j < |lifts[1..]| && rest.rect.Bottom() == lifts[1..][j].rect.y + lifts[1..][j].moveY;
          assert lifts[j + 1] == lifts[1..][j];
        }
      }
      assert rest.onGround ==> exists i :: 0 <= i < |lifts| && Collides(rect, lifts[i].rect) by {
        if rest.onGround {
          var j :| 0 <= j < |lifts[1..]| && Collides(rect, lifts[1..][j].rect);
          assert lifts[j + 1] == lifts[1..][j];
        }
      }
      assert (exists i :: 0 <= i < |lifts| && Collides(rect, lifts[i].rect)) && velY >= 0 ==> rest.onGround by {
        if velY >= 0 && exists i :: 0 <= i < |lifts| && Collides(rect, lifts[i].rect) {
          var i :| 0 <= i < |lifts| && Collides(rect, lifts[i].rect);
          assert lifts[1..][i - 1] == lifts[i];
        }
      }
      rest
  }

  /** Boarding a single lift snaps the player onto its top and then shifts it
      by exactly (moveX, moveY). */
  lemma RideOne(rect: Rect, velY: int, l: Lift)
    requires velY >= 0 && Collides(rect, l.rect)
    ensures Ride(rect, velY, [l]).rect.x == rect.x + l.moveX
    ensures Ride(rect, velY, [l]).rect.y == l.rect.y - rect.h + l.moveY
    ensures Ride(rect, velY, [l]).velY == 0 && Ride(rect, velY, [l]).onGround
  {
  }

  function LiftRects(ls: seq<Lift>): seq<Rect>
  {
    seq(|ls|, i requires 0 <= i < |ls| => ls[i].rect)
  }

  /** Both landing loops of this version: the fixed platforms first, then the
      lifts, starting from where the first loop left the player. */
  function LandAll(c: Rect, velY: int, plats: seq<Rect>, lifts: seq<Lift>): (r: Landing)
    ensures r.rect.w == c.w && r.rect.h == c.h
    ensures r.onGround <==> r.landings > 0
    ensures var s := Settle(c, velY, plats);
      var rides := s.velY >= 0 && exists i :: 0 <= i < |lifts| && Collides(s.rect, lifts[i].rect);
      && (!rides ==> r == s)
      && (rides ==> r.onGround && r.velY == 0 &&
                    exists i :: 0 <= i < |lifts| && r.rect.Bottom() == lifts[i].rect.y + lifts[i].moveY)
    ensures (forall i :: 0 <= i < |lifts| ==> lifts[i].moveX == 0) ==> r.rect.x == c.x
  {
    var s := Settle(c, velY, plats);
    var ride := Ride(s.rect, s.velY, lifts);
    Landing(ride.rect, ride.velY, s.onGround || ride.onGround, s.landings + ride.landings)
  }

  /** NaoPlayer.update of this version: walk, jump, gravity, move, clamp to the
      window, land on the fixed platforms, then ride the lifts. */
  function PlayerUpdate(p: Player, keys: Keys, plats: seq<Rect>, lifts: seq<Lift>): (r: Step<Player>)
    ensures r.state.velY <= MaxFallSpeed
    ensures p.rect.w <= Width && (forall i :: 0 <= i < |lifts| ==> lifts[i].moveX == 0) ==>
              0 <= r.state.rect.x <= Width - p.rect.w
    ensures var m := Advance(p, keys);
      var x := Clamp(m.rect.x, m.rect.w);
      var onPlatform := m.velY >= 0 && exists i :: 0 <= i < |plats| && Collides(m.rect.(x := x), plats[i]);
      && (onPlatform ==> r.state.onGround && r.state.velY == 0)
      && (!onPlatform && !(exists i :: 0 <= i < |lifts| && Collides(m.rect.(x := x), lifts[i].rect)) ==>
            !r.state.onGround && r.state.velY == m.velY && r.state.rect == m.rect.(x := x))
    ensures var m := Advance(p, keys);
      var s := Settle(m.rect.(x := Clamp(m.rect.x, m.rect.w)), m.velY, plats);
      var rides := s.velY >= 0 && exists i :: 0 <= i < |lifts| && Collides(s.rect, lifts[i].rect);
      && (!rides ==> r.state.rect == s.rect && r.state.velY == s.velY && r.state.onGround == s.onGround)
      && (!rides ==> r.state.rect.x == Clamp(m.rect.x, m.rect.w))
      && (!rides && r.state.onGround ==> exists i :: 0 <= i < |plats| && r.state.rect.Bottom() == plats[i].y)
      && (rides ==> r.state.onGround && r.state.velY == 0 &&
                    exists i :: 0 <= i < |lifts| && r.state.rect.Bottom() == lifts[i].rect.y + lifts[i].moveY)
      && ((forall i :: 0 <= i < |lifts| ==> lifts[i].moveX == 0) ==> r.state.rect.x == Clamp(m.rect.x, m.rect.w))
    ensures Count(r.events, Jump) == (if Jumps(p, keys) then 1 else 0)
    ensures Count(r.events, Land) > 0 <==> r.state.onGround
    ensures forall e :: e in r.events ==> e == Jump || e == Land
  {
    var m := Advance(p, keys);
    var l := LandAll(m.rect.(x := Clamp(m.rect.x, m.rect.w)), m.velY, plats, lifts);
    Step(m.(rect := l.rect, velY := l.velY, onGround := l.onGround), UpdateLog(Jumps(p, keys), l))
  }

  /** Some enemy overlaps the rectangle. */
  predicate Hit(rect: Rect, enemies: seq<Enemy>) {
    exists i :: 0 <= i < |enemies| && Collides(rect, enemies[i].rect)
  }

  lemma HitUncons(rect: Rect, enemies: seq<Enemy>)
    requires |enemies| > 0
    ensures Hit(rect, enemies) <==> Collides(rect, enemies[0].rect) || Hit(rect, enemies[1..])
  {
    if Hit(rect, enemies) {
      var i :| 0 <= i < |enemies| && Collides(rect, enemies[i].rect);
      if i > 0 { assert enemies[1..][i - 1] == enemies[i]; }
    }
    if Hit(rect, enemies[1..]) {
      var i :| 0 <= i < |enemies[1..]| && Collides(rect, enemies[1..][i].rect);
      assert enemies[i + 1] == enemies[1..][i];
    }
  }

  /** The player sent back to the spawn point at rest. */
  function Respawn(p: Player): (q: Player)
    ensures q.rect.x == Stage.SpawnX && q.rect.y == Stage.SpawnY && q.velY == 0
    ensures q.rect.w == p.rect.w && q.rect.h == p.rect.h
    ensures q.onGround == p.onGround && q.frame == p.frame && q.pose == p.pose
  {
    p.(rect := p.rect.(x := Stage.SpawnX, y := Stage.SpawnY), velY := 0)
  }

  /** Enemy contact: each enemy in turn that touches the player sends the
      player back to the spawn point at rest, with a fall reaction. */
  function Contact(p: Player, enemies: seq<Enemy>): (r: Step<Player>)
    decreases |enemies|
    ensures Hit(p.rect, enemies) ==> r.state == Respawn(p)
    ensures !Hit(p.rect, enemies) ==> r.state == p && r.events == []
    ensures forall e :: e in r.events ==> e == Fall
    ensures Count(r.events, Fall) > 0 <==> Hit(p.rect, enemies)
  {
    if |enemies| == 0 then Step(p, [])
    else
      var first := if Collides(p.rect, enemies[0].rect) then Step(Respawn(p), [Fall]) else Step(p, []);
      var rest := Contact(first.state, enemies[1..]);
      HitUncons(p.rect, enemies);
      CountAppend(first.events, rest.events, Fall);
      Step(rest.state, first.events + rest.events)
  }

  /** Every lift takes its own step; none moves sideways. */
  function LiftsUpdate(ls: seq<Lift>): (rs: seq<Lift>)
    ensures |rs| == |ls| && forall i :: 0 <= i < |ls| ==> rs[i] == LiftUpdate(ls[i])
    ensures forall i :: 0 <= i < |ls| ==> rs[i].rect.x == ls[i].rect.x
  {
    seq(|ls|, i requires 0 <= i < |ls| => LiftUpdate(ls[i]))
  }

  function EnemiesUpdate(es: seq<Enemy>): (rs: seq<Enemy>)
    ensures |rs| == |es| && forall i :: 0 <= i < |es| ==> rs[i] == EnemyUpdate(es[i])
  {
    seq(|es|, i requires 0 <= i < |es| => EnemyUpdate(es[i]))
  }

  /** Audience keys: C cheers, B boos. */
  datatype AudienceKey = CheerKey | BooKey | OtherKey

  /** The reaction of one audience key. */
  function React(k: AudienceKey): (log: seq<Event>)
    ensures k == CheerKey <==> log == [Cheer]
    ensures k == BooKey <==> log == [Boo]
    ensures k == OtherKey <==> log == []
  {
    match k
    case CheerKey => [Cheer]
    case BooKey => [Boo]
    case OtherKey => []
  }

  /** The audience reactions of a tick's key presses, in order: one cheer per
      C, one boo per B, nothing else. */
  function Audience(keys: seq<AudienceKey>): (log: seq<Event>)
    decreases |keys|
    ensures |log| == |keys| - Count3(keys, OtherKey)
    ensures forall e :: e in log ==> e == Cheer || e == Boo
    ensures Count(log, Cheer) == Count3(keys, CheerKey)
    ensures Count(log, Boo) == Count3(keys, BooKey)
  {
    if |keys| == 0 then []
    else
      var rest := Audience(keys[1..]);
      CountAppend(React(keys[0]), rest, Cheer);
      CountAppend(React(keys[0]), rest, Boo);
      React(keys[0]) + rest
  }

  /** The reactions follow the key presses in order: the audience reactions of
      two batches of keys are those of the first, then those of the second. */
  lemma {:induction false} AudienceInOrder(a: seq<AudienceKey>, b: seq<AudienceKey>)
    ensures Audience(a + b) == Audience(a) + Audience(b)
    decreases |a|
  {
    if |a| == 0 {
      assert a + b == b;
    } else {
      assert (a + b)[1..] == a[1..] + b;
      AudienceInOrder(a[1..], b);
    }
  }

  function Count3(keys: seq<AudienceKey>, k: AudienceKey): (n: nat)
    ensures n <= |keys|
  {
    if |keys| == 0 then 0 else (if keys[0] == k then 1 else 0) + Count3(keys[1..], k)
  }

  datatype World = World(player: Player, lifts: seq<Lift>, enemies: seq<Enemy>, fallTimer: nat, levelDone: bool)

  function Begin(playerSize: Size): (w: World)
    ensures w.player.rect == At(Stage.SpawnX, Stage.SpawnY, playerSize) && !w.levelDone
    ensures |w.lifts| == 1 && |w.enemies| == 2
  {
    World(Spawn(Stage.SpawnX, Stage.SpawnY, playerSize),
          [Lift(Rect(350, 250, 120, 20), 250, 0, 2, 60)],
          [Enemy(At(400, Height - 80, EnemySize), 400, 120, 2), Enemy(At(600, 330, EnemySize), 600, 100, 2)],
          0, false)
  }

  /** The player, fall counter and latch after the checks that follow the moves. */
  datatype Checked = Checked(player: Player, fallTimer: nat, levelDone: bool)

  /** The checks after the moves: fall detection on the moved player, enemy
      contact, then the level latch on where the player ends up. */
  function Checks(p: Player, enemies: seq<Enemy>, timer: nat, done: bool): (r: Step<Checked>)
    ensures var falling := FallWatch.Falling(p.velY, p.onGround, FallThreshold);
      var alarm := if falling && r.state.fallTimer == FallWatch.Alarm then 1 else 0;
      && (falling ==> r.state.fallTimer == timer + 1)
      && (!falling ==> r.state.fallTimer == 0)
      && (Hit(p.rect, enemies) ==> Count(r.events, Fall) > alarm)
      && (!Hit(p.rect, enemies) ==> Count(r.events, Fall) == alarm)
    ensures Hit(p.rect, enemies) ==> r.state.player == Respawn(p)
    ensures !Hit(p.rect, enemies) ==> r.state.player == p
    ensures r.state.levelDone <==> done || r.state.player.rect.x > Stage.FinishLine
    ensures Count(r.events, Applause) == (if !done && r.state.player.rect.x > Stage.FinishLine then 1 else 0)
    ensures forall e :: e in r.events ==> e == Fall || e == Applause
  {
    var watch := FallWatch.Detect(timer, p.velY, p.onGround, FallThreshold);
    var c := Contact(p, enemies);
    var latch := Stage.Latch(done, c.state.rect.x);
    CountLog3(watch.events, c.events, latch.events);
    Step(Checked(c.state, watch.state, latch.state), watch.events + c.events + latch.events)
  }

  /** How the reactions of a tick add up: cheers and boos only from the
      audience keys, jumps only from the player update, falls and applause only
      from the checks. */
  lemma TickLog(pressed: seq<AudienceKey>, moves: seq<Event>, checks: seq<Event>)
    requires forall e :: e in moves ==> e == Jump || e == Land
    requires forall e :: e in checks ==> e == Fall || e == Applause
    ensures var log := Audience(pressed) + moves + checks;
      && Count(log, Cheer) == Count3(pressed, CheerKey) && Count(log, Boo) == Count3(pressed, BooKey)
      && Count(log, Jump) == Count(moves, Jump)
      && Count(log, Fall) == Count(checks, Fall) && Count(log, Applause) == Count(checks, Applause)
  {
    CountLog3(Audience(pressed), moves, checks);
  }

  /** One pass of the game loop: audience keys, player, lifts, enemies, fall
      detection, enemy contact, level latch. */
  function Tick(w: World, pressed: seq<AudienceKey>, keys: Keys): (r: Step<World>)
    ensures var u := PlayerUpdate(w.player, keys, Stage.Course, w.lifts).state;
      var hit := Hit(u.rect, EnemiesUpdate(w.enemies));
      && (hit ==> r.state.player.rect.x == Stage.SpawnX && r.state.player.rect.y == Stage.SpawnY
                  && r.state.player.velY == 0)
      && (hit ==> r.state.player.rect.w == u.rect.w && r.state.player.rect.h == u.rect.h
                  && r.state.player.onGround == u.onGround && r.state.player.frame == u.frame
                  && r.state.player.pose == u.pose)
      && (!hit ==> r.state.player == u)
    ensures var u := PlayerUpdate(w.player, keys, Stage.Course, w.lifts).state;
      var falling := FallWatch.Falling(u.velY, u.onGround, FallThreshold);
      var alarm := if falling && r.state.fallTimer == FallWatch.Alarm then 1 else 0;
      && (falling ==> r.state.fallTimer == w.fallTimer + 1)
      && (!falling ==> r.state.fallTimer == 0)
      && (Hit(u.rect, EnemiesUpdate(w.enemies)) ==> Count(r.events, Fall) > alarm)
      && (!Hit(u.rect, EnemiesUpdate(w.enemies)) ==> Count(r.events, Fall) == alarm)
    ensures r.state.lifts == LiftsUpdate(w.lifts) && r.state.enemies == EnemiesUpdate(w.enemies)
    ensures r.state.levelDone <==> w.levelDone || r.state.player.rect.x > Stage.FinishLine
    ensures Count(r.events, Applause) == (if !w.levelDone && r.state.player.rect.x > Stage.FinishLine then 1 else 0)
    ensures Count(r.events, Cheer) == Count3(pressed, CheerKey) && Count(r.events, Boo) == Count3(pressed, BooKey)
    ensures Count(r.events, Jump) == (if Jumps(w.player, keys) then 1 else 0)
  {
    var audience := Audience(pressed);
    var u := PlayerUpdate(w.player, keys, Stage.Course, w.lifts);
    var enemies := EnemiesUpdate(w.enemies);
    var c := Checks(u.state, enemies, w.fallTimer, w.levelDone);
    TickLog(pressed, u.events, c.events);
    Step(World(c.state.player, LiftsUpdate(w.lifts), enemies, c.state.fallTimer, c.state.levelDone),
         audience + u.events + c.events)
  }

  /** What happens in one tick: the audience keys pressed, and the keys held. */
  datatype Input = Input(pressed: seq<AudienceKey>, keys: Keys)

  function Play(w: World, inputs: seq<Input>): Step<World>
    decreases |inputs|
  {
    if |inputs| == 0 then Step(w, [])
    else
      var first := Tick(w, inputs[0].pressed, inputs[0].keys);
      var rest := Play(first.state, inputs[1..]);
      Step(rest.state, first.events + rest.events)
  }

  /** The level latch is never reset, so the applause fires at most once in a
      whole game, whatever the audience presses. */
  lemma {:induction false} ApplauseAtMostOnce(w: World, inputs: seq<Input>)
    ensures Count(Play(w, inputs).events, Applause) <= (if w.levelDone then 0 else 1)
    ensures w.levelDone ==> Play(w, inputs).state.levelDone
    decreases |inputs|
  {
    if |inputs| > 0 {
      var first := Tick(w, inputs[0].pressed, inputs[0].keys);
      ApplauseAtMostOnce(first.state, inputs[1..]);
      CountAppend(first.events, Play(first.state, inputs[1..]).events, Applause);
    }
  }

  /** Every audience key of a whole game gets its reaction: the game cheers
      once per C and boos once per B pressed. */
  lemma {:induction false} AudienceHeard(w: World, inputs: seq<Input>)
    ensures Count(Play(w, inputs).events, Cheer) == PressedCount(inputs, CheerKey)
    ensures Count(Play(w, inputs).events, Boo) == PressedCount(inputs, BooKey)
    decreases |inputs|
  {
    if |inputs| > 0 {
      var first := Tick(w, inputs[0].pressed, inputs[0].keys);
      AudienceHeard(first.state, inputs[1..]);
      CountAppend(first.events, Play(first.state, inputs[1..]).events, Cheer);
      CountAppend(first.events, Play(first.state, inputs[1..]).events, Boo);
    }
  }

  /** Presses of audience key `k` over a whole game. */
  function PressedCount(inputs: seq<Input>, k: AudienceKey): nat
  {
    if |inputs| == 0 then 0 else Count3(inputs[0].pressed, k) + PressedCount(inputs[1..], k)
  }
}
