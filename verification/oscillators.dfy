/** The back-and-forth rules that move enemies and platforms. Each one moves a
    position by a signed speed and reverses when the position leaves a band. */
module Oscillators {
  import opened Geometry

  /** A position and the direction (or signed speed) it moves in. */
  datatype Swing = Swing(pos: int, dir: int)

  /** Shuttle: `pos += speed * dir`, then reverse `dir` when `pos` lies
      outside [start, start + range]. Moves the v4 MovingPlatform and the
      movable v5 Platform. */
  function Shuttle(s: Swing, start: int, range: int, speed: int): (r: Swing)
    ensures r.pos == s.pos + speed * s.dir
    ensures r.dir == -s.dir <==> r.pos < start || r.pos > start + range || s.dir == 0
    ensures r.dir == s.dir || r.dir == -s.dir
  {
    var pos := s.pos + speed * s.dir;
    if pos < start || pos > start + range then Swing(pos, -s.dir) else Swing(pos, s.dir)
  }

  /** What a shuttle keeps from tick to tick: a unit direction, a position at
      most one step outside [start, start + range], and a direction that points
      back into the band whenever the position is outside it. */
  predicate ShuttleInv(s: Swing, start: int, range: int, speed: int) {
    && speed >= 0 && range >= 0
    && (s.dir == 1 || s.dir == -1)
    && start - speed <= s.pos <= start + range + speed
    && (s.pos < start ==> s.dir == 1)
    && (s.pos > start + range ==> s.dir == -1)
  }

  /** A shuttle created at its start, moving forward, satisfies the invariant. */
  lemma ShuttleInvInit(start: int, range: int, speed: int)
    requires speed >= 0 && range >= 0
    ensures ShuttleInv(Swing(start, 1), start, range, speed)
  {
  }

  lemma ShuttleInvStep(s: Swing, start: int, range: int, speed: int)
    requires ShuttleInv(s, start, range, speed)
    ensures ShuttleInv(Shuttle(s, start, range, speed), start, range, speed)
  {
  }

  /** A shuttle with speed 0 never moves. */
  lemma ShuttleStill(s: Swing, start: int, range: int)
    ensures Shuttle(s, start, range, 0).pos == s.pos
  {
  }

  function ShuttleN(s: Swing, start: int, range: int, speed: int, n: nat): Swing
  {
    if n == 0 then s else Shuttle(ShuttleN(s, start, range, speed, n - 1), start, range, speed)
  }

  /** Over any number of ticks a shuttle keeps a unit direction and stays within
      [start - speed, start + range + speed]. */
  lemma {:induction false} ShuttleBounded(s: Swing, start: int, range: int, speed: int, n: nat)
    requires ShuttleInv(s, start, range, speed)
    ensures ShuttleInv(ShuttleN(s, start, range, speed, n), start, range, speed)
    ensures var t := ShuttleN(s, start, range, speed, n);
      (t.dir == 1 || t.dir == -1) && start - speed <= t.pos <= start + range + speed
  {
    if n > 0 {
      ShuttleBounded(s, start, range, speed, n - 1);
      ShuttleInvStep(ShuttleN(s, start, range, speed, n - 1), start, range, speed);
    }
  }

  function Abs(x: int): (a: int)
    ensures a >= 0 && (a == x || a == -x)
  {
    if x < 0 then -x else x
  }

  /** Patrol: `pos += vel`, then negate `vel` when `pos` is more than `range`
      away from `start`. Moves the v2 Enemy (horizontally) and the v2
      MovingPlatform (vertically). */
  function Patrol(s: Swing, start: int, range: int): (r: Swing)
    ensures r.pos == s.pos + s.dir
    ensures Abs(r.dir) == Abs(s.dir)
    ensures r.dir == -s.dir || r.dir == s.dir
    ensures Abs(r.pos - start) > range ==> r.dir == -s.dir
    ensures Abs(r.pos - start) <= range ==> r.dir == s.dir
  {
    var pos := s.pos + s.dir;
    if Abs(pos - start) > range then Swing(pos, -s.dir) else Swing(pos, s.dir)
  }

  /** What a patrol keeps: at most one step beyond `range` from `start`, and
      heading back whenever beyond it. */
  predicate PatrolInv(s: Swing, start: int, range: int) {
    && range >= 0
    && Abs(s.pos - start) <= range + Abs(s.dir)
    && (s.pos - start > range ==> s.dir < 0)
    && (s.pos - start < -range ==> s.dir > 0)
  }

  lemma PatrolInvStep(s: Swing, start: int, range: int)
    requires PatrolInv(s, start, range)
    ensures PatrolInv(Patrol(s, start, range), start, range)
  {
  }

  function PatrolN(s: Swing, start: int, range: int, n: nat): Swing
  {
    if n == 0 then s else Patrol(PatrolN(s, start, range, n - 1), start, range)
  }

  /** A patrol started at `start` keeps its speed magnitude forever and never
      strays more than `range + |speed|` from `start`. */
  lemma {:induction false} PatrolBounded(speed: int, start: int, range: int, n: nat)
    requires range >= 0
    ensures PatrolInv(PatrolN(Swing(start, speed), start, range, n), start, range)
    ensures Abs(PatrolN(Swing(start, speed), start, range, n).dir) == Abs(speed)
    ensures Abs(PatrolN(Swing(start, speed), start, range, n).pos - start) <= range + Abs(speed)
  {
    if n > 0 {
      PatrolBounded(speed, start, range, n - 1);
      PatrolInvStep(PatrolN(Swing(start, speed), start, range, n - 1), start, range);
    }
  }

  /** EdgeBounce: `x += dir * 2`, then reverse when the sprite's left edge is
      left of 0 or its right edge right of the window. Moves the v3 and v5
      Enemy. */
  function EdgeBounce(s: Swing, w: int): (r: Swing)
    ensures r.pos == s.pos + 2 * s.dir
    ensures r.dir == -s.dir || r.dir == s.dir
    ensures r.pos < 0 || r.pos + w > Width ==> r.dir == -s.dir
    ensures 0 <= r.pos && r.pos + w <= Width ==> r.dir == s.dir
  {
    var x := s.pos + s.dir * 2;
    if x < 0 || x + w > Width then Swing(x, -s.dir) else Swing(x, s.dir)
  }

  /** The screen-edge bounce is the shuttle over [0, Width - w] at speed 2, so
      it inherits the shuttle's invariant. */
  lemma EdgeBounceIsShuttle(s: Swing, w: int)
    ensures EdgeBounce(s, w) == Shuttle(s, 0, Width - w, 2)
  {
  }

  /** A sprite whose right edge lies more than one step beyond the window's
      right edge never gets back: it jitters between two positions, returning
      to where it was every second tick with its direction restored. */
  lemma EdgeBounceStuckBeyondWindow(s: Swing, w: int)
    requires s.dir == 1 || s.dir == -1
    requires s.pos + w > Width + 2
    ensures EdgeBounce(EdgeBounce(s, w), w) == s
    ensures EdgeBounce(s, w).dir == -s.dir
  {
  }

  /** Drift: `x += dir * 2` with no reversal. Moves the v4 Enemy, whose direction
      is 1 forever. */
  function Drift(s: Swing): (r: Swing)
    ensures r.dir == s.dir
    ensures r.pos - s.pos == 2 * s.dir
  {
    Swing(s.pos + s.dir * 2, s.dir)
  }

  function DriftN(s: Swing, n: nat): Swing
  {
    if n == 0 then s else Drift(DriftN(s, n - 1))
  }

  /** After `n` ticks a forward drifter has moved exactly `2 * n` to the right. */
  lemma {:induction false} DriftLinear(x: int, n: nat)
    ensures DriftN(Swing(x, 1), n) == Swing(x + 2 * n, 1)
  {
    if n > 0 {
      DriftLinear(x, n - 1);
    }
  }
}
