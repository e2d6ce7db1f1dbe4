/** Fall detection: a counter of consecutive ticks in which the player drops
    fast without ground contact; the fall reaction fires on the tick the
    counter reaches 20. */
module FallWatch {
  import opened Reactions
  import Physics
  import Geometry

  /** The tick on which the reaction fires. */
  const Alarm: nat := 20

  /** The falling condition of one tick: faster than `threshold` and airborne. */
  predicate Falling(velY: int, onGround: bool, threshold: int) {
    velY > threshold && !onGround
  }

  datatype Watch = Watch(timer: nat, fires: bool)

  /** One tick of the counter. */
  function Observe(timer: nat, falling: bool): (r: Watch)
    ensures !falling ==> r.timer == 0
    ensures falling ==> r.timer == timer + 1
    ensures r.fires <==> falling && r.timer == Alarm
  {
    if falling then Watch(timer + 1, timer + 1 == Alarm) else Watch(0, false)
  }

  /** Fall detection as a game loop runs it after the player update: the new
      counter, and the fall reaction on the tick the counter reaches 20. */
  function Detect(timer: nat, velY: int, onGround: bool, threshold: int): (r: Step<nat>)
    ensures Falling(velY, onGround, threshold) ==> r.state == timer + 1
    ensures !Falling(velY, onGround, threshold) ==> r.state == 0
    ensures r.events == (if Falling(velY, onGround, threshold) && r.state == Alarm then [Fall] else [])
  {
    var o := Observe(timer, Falling(velY, onGround, threshold));
    Step(o.timer, if o.fires then [Fall] else [])
  }

  /** The player after its update, and the fall counter watching it. */
  datatype Watched = Watched(player: Physics.Player, timer: nat)

  /** The player update of a tick followed by fall detection on the moved
      player, with the reactions of both in that order. */
  function UpdateWatched(p: Physics.Player, keys: Physics.Keys, plats: seq<Geometry.Rect>, timer: nat, threshold: int)
    : (r: Step<Watched>)
    ensures r.state.player == Physics.Update(p, keys, plats).state
    ensures var falling := Falling(r.state.player.velY, r.state.player.onGround, threshold);
      && (falling ==> r.state.timer == timer + 1)
      && (!falling ==> r.state.timer == 0)
      && Count(r.events, Fall) == (if falling && r.state.timer == Alarm then 1 else 0)
    ensures Count(r.events, Jump) == (if Physics.Jumps(p, keys) then 1 else 0)
    ensures Count(r.events, Applause) == 0
    ensures forall e :: e in r.events ==> e == Jump || e == Land || e == Fall
  {
    var u := Physics.Update(p, keys, plats);
    var d := Detect(timer, u.state.velY, u.state.onGround, threshold);
    CountLog3(u.events, d.events, []);
    assert u.events + d.events + [] == u.events + d.events;
    Step(Watched(u.state, d.state), u.events + d.events)
  }

  /** Counter after a sequence of ticks, and which ticks fired. */
  datatype Trace = Trace(timer: nat, fires: seq<bool>)

  function Watching(timer: nat, falls: seq<bool>): (r: Trace)
    ensures |r.fires| == |falls|
    decreases |falls|
  {
    if |falls| == 0 then Trace(timer, [])
    else
      var o := Observe(timer, falls[0]);
      var rest := Watching(o.timer, falls[1..]);
      Trace(rest.timer, [o.fires] + rest.fires)
  }

  function CountTrue(bs: seq<bool>): nat
  {
    if |bs| == 0 then 0 else (if bs[0] then 1 else 0) + CountTrue(bs[1..])
  }

  /** Within one unbroken falling streak the counter just counts up, and the
      reaction fires exactly once if the streak carries the counter across 20. */
  lemma {:induction false} OnceInStreak(timer: nat, falls: seq<bool>)
    requires forall i :: 0 <= i < |falls| ==> falls[i]
    ensures Watching(timer, falls).timer == timer + |falls|
    ensures CountTrue(Watching(timer, falls).fires) == if timer < Alarm <= timer + |falls| then 1 else 0
    decreases |falls|
  {
    if |falls| > 0 {
      OnceInStreak(timer + 1, falls[1..]);
    }
  }

  /** A streak that starts from a reset counter fires once if it lasts at
      least 20 ticks, and otherwise not at all. */
  lemma StreakFromRest(falls: seq<bool>)
    requires forall i :: 0 <= i < |falls| ==> falls[i]
    ensures CountTrue(Watching(0, falls).fires) == if |falls| >= Alarm then 1 else 0
  {
    OnceInStreak(0, falls);
  }

  /** Watching a concatenation is watching the second part from where the
      first part left the counter. */
  lemma {:induction false} WatchingAppend(timer: nat, a: seq<bool>, b: seq<bool>)
    ensures Watching(timer, a + b).timer == Watching(Watching(timer, a).timer, b).timer
    ensures Watching(timer, a + b).fires == Watching(timer, a).fires + Watching(Watching(timer, a).timer, b).fires
    decreases |a|
  {
    if |a| == 0 {
      assert a + b == b;
    } else {
      assert (a + b)[1..] == a[1..] + b;
      WatchingAppend(Observe(timer, a[0]).timer, a[1..], b);
    }
  }

  /** If the last tick of a trace fired, the counter stands at 20 afterwards. */
  lemma {:induction false} FiredLast(timer: nat, falls: seq<bool>)
    requires |falls| > 0 && Watching(timer, falls).fires[|falls| - 1]
    ensures Watching(timer, falls).timer == Alarm
    decreases |falls|
  {
    if |falls| > 1 {
      var o := Observe(timer, falls[0]);
      assert Watching(timer, falls).fires[|falls| - 1] == Watching(o.timer, falls[1..]).fires[|falls| - 2];
      FiredLast(o.timer, falls[1..]);
    }
  }

  /** The fires of a prefix are the prefix of the fires. */
  lemma PrefixFires(timer: nat, falls: seq<bool>, n: nat)
    requires n <= |falls|
    ensures Watching(timer, falls[..n]).fires == Watching(timer, falls).fires[..n]
  {
    WatchingAppend(timer, falls[..n], falls[n..]);
    assert falls[..n] + falls[n..] == falls;
  }

  /** After a tick that fired, a streak that goes on fires nothing more. */
  lemma QuietAfterFire(timer: nat, pre: seq<bool>, mid: seq<bool>)
    requires |pre| > 0 && Watching(timer, pre).fires[|pre| - 1]
    requires forall k :: 0 <= k < |mid| ==> mid[k]
    ensures forall k :: |pre| <= k < |pre| + |mid| ==> !Watching(timer, pre + mid).fires[k]
  {
    WatchingAppend(timer, pre, mid);
    FiredLast(timer, pre);
    var fMid := Watching(Watching(timer, pre).timer, mid).fires;
    OnceInStreak(Alarm, mid);
    forall k | |pre| <= k < |pre| + |mid| ensures !Watching(timer, pre + mid).fires[k] {
      assert Watching(timer, pre + mid).fires[k] == fMid[k - |pre|];
      if fMid[k - |pre|] {
        SomeCounted(fMid, k - |pre|);
      }
    }
  }

  /** The reaction fires once per falling streak: once it has fired, it does
      not fire again until a tick on which the player is not falling. */
  lemma OncePerStreak(timer: nat, falls: seq<bool>, i: nat, j: nat)
    requires i < j < |falls|
    requires Watching(timer, falls).fires[i]
    requires forall k :: i < k <= j ==> falls[k]
    ensures !Watching(timer, falls).fires[j]
  {
    var pre, mid := falls[..i + 1], falls[i + 1..j + 1];
    assert pre + mid == falls[..j + 1];
    PrefixFires(timer, falls, i + 1);
    PrefixFires(timer, falls, j + 1);
    assert forall k :: 0 <= k < |mid| ==> mid[k] by {
      forall k | 0 <= k < |mid| ensures mid[k] {
        assert mid[k] == falls[i + 1 + k];
      }
    }
    QuietAfterFire(timer, pre, mid);
    assert Watching(timer, pre + mid).fires[j] == Watching(timer, falls).fires[j];
  }

  lemma {:induction false} SomeCounted(bs: seq<bool>, k: nat)
    requires k < |bs| && bs[k]
    ensures CountTrue(bs) > 0
    decreases |bs|
  {
    if k > 0 {
      SomeCounted(bs[1..], k - 1);
    }
  }
}
