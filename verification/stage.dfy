/** What the single-screen variants (v2, v3, superNAO) share: the three fixed
    platforms, the player's spawn point, and the one-shot finish line. */
module Stage {
  import opened Geometry
  import opened Reactions

  /** Ground strip along the bottom of the window and two floating blocks. */
  const Course: seq<Rect> := [Rect(0, Height - 40, Width, 40), Rect(200, 450, 200, 20), Rect(500, 350, 200, 20)]

  const SpawnX: int := 100
  const SpawnY: int := 400

  /** A player whose left edge is right of this line has finished the level. */
  const FinishLine: int := Width - 60

  /** The level-complete latch: crossing the finish line while the latch is
      open closes it and applauds; a closed latch never opens again. */
  function Latch(done: bool, x: int): (r: Step<bool>)
    ensures r.state <==> done || x > FinishLine
    ensures r.events == (if !done && x > FinishLine then [Applause] else [])
  {
    if x > FinishLine && !done then Step(true, [Applause]) else Step(done, [])
  }

  /** Latch over the player's x on successive ticks, collecting the applause. */
  function LatchRun(done: bool, xs: seq<int>): Step<bool>
    decreases |xs|
  {
    if |xs| == 0 then Step(done, [])
    else
      var first := Latch(done, xs[0]);
      var rest := LatchRun(first.state, xs[1..]);
      Step(rest.state, first.events + rest.events)
  }

  /** Applause fires at most once in a whole run, never after the latch has
      closed, and exactly once if the player ever crosses the line. */
  lemma {:induction false} LatchFiresOnce(done: bool, xs: seq<int>)
    ensures Count(LatchRun(done, xs).events, Applause) <= 1
    ensures done ==> LatchRun(done, xs).events == []
    ensures !done ==> (Count(LatchRun(done, xs).events, Applause) == 1 <==>
                       exists i :: 0 <= i < |xs| && xs[i] > FinishLine)
    decreases |xs|
  {
    if |xs| > 0 {
      var first := Latch(done, xs[0]);
      LatchFiresOnce(first.state, xs[1..]);
      CountAppend(first.events, LatchRun(first.state, xs[1..]).events, Applause);
      if !done && !(xs[0] > FinishLine) {
        if exists i :: 0 <= i < |xs| && xs[i] > FinishLine {
          var i :| 0 <= i < |xs| && xs[i] > FinishLine;
          assert xs[1..][i - 1] == xs[i];
        }
      }
    }
  }
}
