/** The per-tick kinematics of the NAO player sprite: horizontal walking,
    jumping from the ground, gravity with a terminal speed, movement, and the
    sequential landing loop over the platforms. The same update appears in
    nao_showgame_v3, v4, v5 and superNAO; v2 reuses its pieces. */
module Physics {
  import opened Geometry
  import opened Reactions

  const WalkSpeed: int := 5
  const JumpPower: int := -15
  const Gravity: int := 1
  const MaxFallSpeed: int := 10
  /** Frames of one walk cycle; each of the two walk images shows for half of it. */
  const WalkCycle: nat := 10

  /** Keys held during a tick. */
  datatype Keys = Keys(left: bool, right: bool, space: bool)

  /** Which image the player shows: the standing one, or walk image `index`. */
  datatype Pose = Standing | Walking(index: int)

  datatype Player = Player(rect: Rect, velY: int, onGround: bool, frame: int, pose: Pose)

  /** A fresh player at (x, y), at rest, in the air, standing. */
  function Spawn(x: int, y: int, size: Size): (p: Player)
    ensures p.rect == At(x, y, size)
    ensures p.velY == 0 && !p.onGround && p.frame == 0 && p.pose == Standing
  {
    Player(At(x, y, size), 0, false, 0, Standing)
  }

  /** Advances an animation counter that wraps to 0 when it reaches `period`. */
  function Cycle(frame: int, period: nat): (r: int)
    requires period > 0
    ensures 0 <= frame < period ==> 0 <= r < period && r == (frame + 1) % period
  {
    if frame + 1 >= period then 0 else frame + 1
  }

  /** Image index of a counter that shows each of two images for `half` frames. */
  function ImageIndex(frame: int, half: nat): (i: int)
    requires half > 0
    ensures 0 <= frame < 2 * half ==> i == 0 || i == 1
    ensures 0 <= frame < 2 * half ==> (i == 1 <==> frame >= half)
  {
    frame / half
  }

  /** The walk animation step. */
  function Animate(p: Player): (q: Player)
    ensures q.rect == p.rect && q.velY == p.velY && q.onGround == p.onGround
    ensures 0 <= p.frame < WalkCycle ==> 0 <= q.frame < WalkCycle
    ensures 0 <= p.frame < WalkCycle ==> q.pose.Walking? && (q.pose.index == 0 || q.pose.index == 1)
    ensures 0 <= p.frame < WalkCycle ==> q.frame == (p.frame + 1) % WalkCycle
    ensures 0 <= p.frame < WalkCycle ==> q.pose == Walking(if q.frame >= WalkCycle / 2 then 1 else 0)
  {
    var f := Cycle(p.frame, WalkCycle);
    p.(frame := f, pose := Walking(ImageIndex(f, WalkCycle / 2)))
  }

  /** Horizontal displacement chosen by the arrow keys; LEFT wins over RIGHT. */
  function Dx(keys: Keys): (dx: int)
    ensures dx == -WalkSpeed || dx == 0 || dx == WalkSpeed
    ensures dx < 0 <==> keys.left
    ensures dx > 0 <==> !keys.left && keys.right
  {
    if keys.left then -WalkSpeed else if keys.right then WalkSpeed else 0
  }

  /** A jump starts only when SPACE is held while standing on a platform. */
  predicate Jumps(p: Player, keys: Keys) {
    keys.space && p.onGround
  }

  /** One gravity step with the terminal speed clamp. */
  function Fall(velY: int): (v: int)
    ensures v <= MaxFallSpeed
    ensures v <= velY + Gravity
    ensures velY < MaxFallSpeed ==> v == velY + Gravity
    ensures velY >= MaxFallSpeed ==> v == MaxFallSpeed
  {
    if velY + Gravity > MaxFallSpeed then MaxFallSpeed else velY + Gravity
  }

  /** Everything the update does before collisions: input, jump, gravity, move. */
  function Advance(p: Player, keys: Keys): (q: Player)
    ensures q.rect.x == p.rect.x + Dx(keys)
    ensures q.rect.w == p.rect.w && q.rect.h == p.rect.h
    ensures q.velY == Fall(if Jumps(p, keys) then JumpPower else p.velY)
    ensures q.rect.y == p.rect.y + q.velY
    ensures q.pose == Standing <==> !keys.left && !keys.right
    ensures !keys.left && !keys.right ==> q.frame == p.frame
    ensures 0 <= p.frame < WalkCycle ==> 0 <= q.frame < WalkCycle
    ensures 0 <= p.frame < WalkCycle && q.pose.Walking? ==> q.pose.index == 0 || q.pose.index == 1
    ensures (keys.left || keys.right) && 0 <= p.frame < WalkCycle ==> q.frame == (p.frame + 1) % WalkCycle
    ensures (keys.left || keys.right) && 0 <= p.frame < WalkCycle ==> q.pose == Walking(if q.frame >= WalkCycle / 2 then 1 else 0)
  {
    var walked := if keys.left || keys.right then Animate(p) else p.(pose := Standing);
    var v := Fall(if Jumps(p, keys) then JumpPower else p.velY);
    walked.(rect := walked.rect.(x := walked.rect.x + Dx(keys), y := walked.rect.y + v),
            velY := v,
            onGround := if Jumps(p, keys) then false else p.onGround)
  }

  /** Outcome of a landing loop: new rectangle and velocity, whether the player
      stands on something, and how many times it landed (one reaction each). */
  datatype Landing = Landing(rect: Rect, velY: int, onGround: bool, landings: nat)

  /** The landing loop: each platform in turn that the (possibly already
      snapped) rectangle overlaps while not rising puts the player's bottom on
      its top and stops the fall. */
  function Settle(rect: Rect, velY: int, plats: seq<Rect>): (r: Landing)
    decreases |plats|
    ensures r.rect.x == rect.x && r.rect.w == rect.w && r.rect.h == rect.h
    ensures r.onGround <==> r.landings > 0
    ensures r.onGround <==> velY >= 0 && exists i :: 0 <= i < |plats| && Collides(rect, plats[i])
    ensures r.velY == (if r.onGround then 0 else velY)
    ensures !r.onGround ==> r.rect == rect
    ensures r.onGround ==> exists i :: 0 <= i < |plats| && r.rect.Bottom() == plats[i].y
  {
    if |plats| == 0 then Landing(rect, velY, false, 0)
    else if Collides(rect, plats[0]) && velY >= 0 then
      var rest := Settle(WithBottom(rect, plats[0].y), 0, plats[1..]);
      assert rest.onGround ==> exists i :: 0 <= i < |plats| && rest.rect.Bottom() == plats[i].y by {
        if rest.onGround {
          var j :| 0 <= j < |plats[1..]| && rest.rect.Bottom() == plats[1..][j].y;
          assert plats[j + 1] == plats[1..][j];
        }
      }
      Landing(rest.rect, rest.velY, true, rest.landings + 1)
    else
      var rest := Settle(rect, velY, plats[1..]);
      assert rest.onGround ==> exists i :: 0 <= i < |plats| && Collides(rect, plats[i]) && rest.rect.Bottom() == rest.rect.Bottom() by {
        if rest.onGround {
          var j :| 0 <= j < |plats[1..]| && Collides(rect, plats[1..][j]);
          assert plats[j + 1] == plats[1..][j];
        }
      }
      assert rest.onGround ==> exists i :: 0 <= i < |plats| && rest.rect.Bottom() == plats[i].y by {
        if rest.onGround {
          var j :| 0 <= j < |plats[1..]| && rest.rect.Bottom() == plats[1..][j].y;
          assert plats[j + 1] == plats[1..][j];
        }
      }
      assert (exists i :: 0 <= i < |plats| && Collides(rect, plats[i])) && velY >= 0 ==> rest.onGround by {
        if velY >= 0 && exists i :: 0 <= i < |plats| && Collides(rect, plats[i]) {
          var i :| 0 <= i < |plats| && Collides(rect, plats[i]);
          assert i != 0;
          assert plats[1..][i - 1] == plats[i];
        }
      }
      rest
  }

  /** Landing reactions of a landing loop. */
  function Landings(l: Landing): (log: seq<Event>)
    ensures Count(log, Land) == l.landings
    ensures Count(log, Jump) == 0
    ensures forall e :: e in log ==> e == Land
  {
    CountRepeat(Land, l.landings, Jump);
    Repeat(Land, l.landings)
  }

  /** The reactions of one player update: a jump reaction if it jumped, then
      the landing reactions. */
  function UpdateLog(jumped: bool, l: Landing): (log: seq<Event>)
    ensures Count(log, Jump) == (if jumped then 1 else 0)
    ensures Count(log, Land) == l.landings
    ensures forall e :: e in log ==> e == Jump || e == Land
  {
    CountAppend(if jumped then [Jump] else [], Landings(l), Jump);
    CountAppend(if jumped then [Jump] else [], Landings(l), Land);
    (if jumped then [Jump] else []) + Landings(l)
  }

  /** NaoPlayer.update: walk, jump, gravity, move, then land on the first
      platforms that the moved rectangle overlaps. */
  function Update(p: Player, keys: Keys, plats: seq<Rect>): (r: Step<Player>)
    ensures keys.left ==> r.state.rect.x == p.rect.x - 5
    ensures !keys.left && keys.right ==> r.state.rect.x == p.rect.x + 5
    ensures !keys.left && !keys.right ==> r.state.rect.x == p.rect.x
    ensures r.state.rect.w == p.rect.w && r.state.rect.h == p.rect.h
    ensures r.state.velY <= MaxFallSpeed
    ensures p.velY >= JumpPower ==> r.state.velY >= JumpPower + Gravity
    ensures p.velY >= JumpPower + Gravity ==> (r.state.velY == JumpPower + Gravity <==> Jumps(p, keys))
    ensures var m := Advance(p, keys);
      r.state.onGround <==> m.velY >= 0 && exists i :: 0 <= i < |plats| && Collides(m.rect, plats[i])
    ensures r.state.onGround ==> r.state.velY == 0
    ensures !r.state.onGround ==> r.state.velY == Fall(if Jumps(p, keys) then JumpPower else p.velY)
    ensures !r.state.onGround ==> r.state.rect.y == p.rect.y + r.state.velY
    ensures r.state.onGround ==> exists i :: 0 <= i < |plats| && r.state.rect.Bottom() == plats[i].y
    ensures r.state.pose == Standing <==> !keys.left && !keys.right
    ensures 0 <= p.frame < WalkCycle ==> 0 <= r.state.frame < WalkCycle
    ensures 0 <= p.frame < WalkCycle && r.state.pose.Walking? ==> r.state.pose.index == 0 || r.state.pose.index == 1
    ensures !keys.left && !keys.right ==> r.state.frame == p.frame
    ensures (keys.left || keys.right) && 0 <= p.frame < WalkCycle ==> r.state.frame == (p.frame + 1) % WalkCycle
    ensures (keys.left || keys.right) && 0 <= p.frame < WalkCycle ==> r.state.pose == Walking(if r.state.frame >= WalkCycle / 2 then 1 else 0)
    ensures Count(r.events, Jump) == (if Jumps(p, keys) then 1 else 0)
    ensures Count(r.events, Land) > 0 <==> r.state.onGround
    ensures forall e :: e in r.events ==> e == Jump || e == Land
  {
    var m := Advance(p, keys);
    var l := Settle(m.rect, m.velY, plats);
    Step(m.(rect := l.rect, velY := l.velY, onGround := l.onGround), UpdateLog(Jumps(p, keys), l))
  }

  /** Input of one tick: keys held and the platforms as they stand. */
  datatype Input = Input(keys: Keys, plats: seq<Rect>)

  /** The player after a sequence of ticks. */
  function Run(p: Player, inputs: seq<Input>): Player
    decreases |inputs|
  {
    if |inputs| == 0 then p
    else Run(Update(p, inputs[0].keys, inputs[0].plats).state, inputs[1..])
  }

  /** The vertical speed stays within [JumpPower + Gravity, MaxFallSpeed] = [-14, 10]
      over any run that starts inside it (in particular from rest). */
  lemma {:induction false} VelocityStaysBounded(p: Player, inputs: seq<Input>)
    requires JumpPower + Gravity <= p.velY <= MaxFallSpeed
    ensures JumpPower + Gravity <= Run(p, inputs).velY <= MaxFallSpeed
    decreases |inputs|
  {
    if |inputs| > 0 {
      VelocityStaysBounded(Update(p, inputs[0].keys, inputs[0].plats).state, inputs[1..]);
    }
  }

  /** The walk counter is inside its cycle and a walking pose shows the image
      the counter selects; a fresh player satisfies this. */
  predicate Animated(p: Player) {
    && 0 <= p.frame < WalkCycle
    && (p.pose.Walking? ==> p.pose.index == ImageIndex(p.frame, WalkCycle / 2))
  }

  /** Every update keeps the animation consistent, so the walk counter stays
      in [0, WalkCycle) and the walk image index in {0, 1} over any run. */
  lemma {:induction false} AnimationStaysInCycle(p: Player, inputs: seq<Input>)
    requires Animated(p)
    ensures Animated(Run(p, inputs))
    ensures Run(p, inputs).pose.Walking? ==> Run(p, inputs).pose.index in {0, 1}
    decreases |inputs|
  {
    if |inputs| > 0 {
      var q := Update(p, inputs[0].keys, inputs[0].plats).state;
      assert Animated(q) by {
        var keys := inputs[0].keys;
        if keys.left || keys.right {
          assert q.frame == Cycle(p.frame, WalkCycle);
          assert q.pose == Walking(ImageIndex(q.frame, WalkCycle / 2));
        } else {
          assert q.frame == p.frame && q.pose == Standing;
        }
      }
      AnimationStaysInCycle(q, inputs[1..]);
    }
  }
}
