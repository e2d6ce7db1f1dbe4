/** The animated enemy sprite of v3, v4 and v5: a rectangle moving by twice its
    direction each tick, and a counter that flips between two images. v3 and
    v5 bounce it off the window edges; v4 lets it walk on forever. */
module Enemies {
  import opened Geometry
  import opened Oscillators
  import Physics

  datatype Enemy = Enemy(rect: Rect, dir: int, frame: int, image: int)

  /** An animation cycle that splits into two equal halves, one per image. */
  predicate Even(period: nat) {
    period >= 2 && period % 2 == 0
  }

  /** A new enemy at (x, y), moving right, showing its first image. */
  function NewEnemy(x: int, y: int, size: Size): (e: Enemy)
    ensures e.rect == At(x, y, size) && e.dir == 1 && e.frame == 0 && e.image == 0
  {
    Enemy(At(x, y, size), 1, 0, 0)
  }

  /** Enemy.animate: advance the counter over a cycle of `period` frames and
      show image 0 in the first half, image 1 in the second. */
  function NextFrame(e: Enemy, period: nat): (r: Enemy)
    requires Even(period)
    ensures r.rect == e.rect && r.dir == e.dir
    ensures 0 <= e.frame < period ==> 0 <= r.frame < period && (r.image == 0 || r.image == 1)
    ensures 0 <= e.frame < period ==> (r.image == 1 <==> r.frame >= period / 2)
    ensures 0 <= e.frame < period ==> r.frame == (e.frame + 1) % period
  {
    var f := Physics.Cycle(e.frame, period);
    e.(frame := f, image := Physics.ImageIndex(f, period / 2))
  }

  /** The v3/v5 update: bounce off the window edges, then animate. */
  function Bounce(e: Enemy, period: nat): (r: Enemy)
    requires Even(period)
    ensures r.rect == e.rect.(x := e.rect.x + 2 * e.dir)
    ensures (e.dir == 1 || e.dir == -1) ==> (r.dir == 1 || r.dir == -1)
    ensures (e.dir == 1 || e.dir == -1) ==> (r.dir == -e.dir <==> r.rect.x < 0 || r.rect.Right() > Width)
    ensures 0 <= e.frame < period ==> 0 <= r.frame < period && (r.image == 0 || r.image == 1)
    ensures 0 <= e.frame < period ==> r.frame == (e.frame + 1) % period
    ensures 0 <= e.frame < period ==> (r.image == 1 <==> r.frame >= period / 2)
  {
    var s := EdgeBounce(Swing(e.rect.x, e.dir), e.rect.w);
    NextFrame(e.(rect := e.rect.(x := s.pos), dir := s.dir), period)
  }

  /** The v4 update: move on in the same direction, then animate. */
  function Walk(e: Enemy, period: nat): (r: Enemy)
    requires Even(period)
    ensures r.dir == e.dir
    ensures r.rect == e.rect.(x := e.rect.x + 2 * e.dir)
    ensures 0 <= e.frame < period ==> 0 <= r.frame < period && (r.image == 0 || r.image == 1)
    ensures 0 <= e.frame < period ==> r.frame == (e.frame + 1) % period
    ensures 0 <= e.frame < period ==> (r.image == 1 <==> r.frame >= period / 2)
  {
    var s := Drift(Swing(e.rect.x, e.dir));
    NextFrame(e.(rect := e.rect.(x := s.pos), dir := s.dir), period)
  }

  /** Every enemy bounces. */
  function BounceAll(es: seq<Enemy>, period: nat): (rs: seq<Enemy>)
    requires Even(period)
    ensures |rs| == |es| && forall i :: 0 <= i < |es| ==> rs[i] == Bounce(es[i], period)
  {
    seq(|es|, i requires 0 <= i < |es| => Bounce(es[i], period))
  }

  /** Every enemy walks on. */
  function WalkAll(es: seq<Enemy>, period: nat): (rs: seq<Enemy>)
    requires Even(period)
    ensures |rs| == |es| && forall i :: 0 <= i < |es| ==> rs[i] == Walk(es[i], period)
  {
    seq(|es|, i requires 0 <= i < |es| => Walk(es[i], period))
  }

  /** A bouncing enemy in good order: a unit direction, at most one step
      outside the window and heading back when outside, and its animation
      counter inside the cycle. */
  predicate Bouncing(e: Enemy, period: nat) {
    && ShuttleInv(Swing(e.rect.x, e.dir), 0, Width - e.rect.w, 2)
    && 0 <= e.frame < period && (e.image == 0 || e.image == 1)
  }

  /** A bounce keeps a bouncing enemy in good order. */
  lemma BounceKeepsBouncing(e: Enemy, period: nat)
    requires Even(period) && Bouncing(e, period)
    ensures Bouncing(Bounce(e, period), period)
  {
    EdgeBounceIsShuttle(Swing(e.rect.x, e.dir), e.rect.w);
    ShuttleInvStep(Swing(e.rect.x, e.dir), 0, Width - e.rect.w, 2);
  }

  /** An enemy whose right edge is more than 2 beyond the window never
      patrols: it steps back and forth between two positions. */
  lemma BounceBeyondWindowJitters(e: Enemy, period: nat)
    requires Even(period)
    requires e.dir == 1 || e.dir == -1
    requires e.rect.Right() > Width + 2
    ensures Bounce(Bounce(e, period), period).rect == e.rect
    ensures Bounce(Bounce(e, period), period).dir == e.dir
  {
    EdgeBounceStuckBeyondWindow(Swing(e.rect.x, e.dir), e.rect.w);
  }
}
