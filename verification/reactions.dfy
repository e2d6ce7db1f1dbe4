/** The robot and sound reactions of the game, recorded as entries of an
    abstract log instead of remote calls. */
module Reactions {

  /** Lines the robot is asked to speak outside the fixed reactions. */
  datatype Phrase =
    | LetsPlay        // menu: START chosen
    | Goodbye         // menu: STOP chosen
    | AllLevelsDone   // last level of the level list finished
    | GameBegins      // side-scroller menu left with S
    | FallingWarning  // superNAO: long fall

  /** One reaction: jump, landing, fall, applause, audience cheer or boo, or speech. */
  datatype Event = Jump | Land | Fall | Applause | Cheer | Boo | Say(phrase: Phrase)

  /** Result of one tick: the new state and the reactions it fired, in order. */
  datatype Step<S> = Step(state: S, events: seq<Event>)

  /** Number of times `e` occurs in `log`. */
  function Count(log: seq<Event>, e: Event): (n: nat)
    ensures n <= |log|
    ensures n == 0 <==> e !in log
  {
    if |log| == 0 then 0
    else (if log[0] == e then 1 else 0) + Count(log[1..], e)
  }

  /** Counting distributes over concatenation of logs. */
  lemma {:induction false} CountAppend(a: seq<Event>, b: seq<Event>, e: Event)
    ensures Count(a + b, e) == Count(a, e) + Count(b, e)
    decreases |a|
  {
    if |a| == 0 {
      assert a + b == b;
    } else {
      assert (a + b)[1..] == a[1..] + b;
      CountAppend(a[1..], b, e);
    }
  }

  /** `n` copies of the same event. */
  function Repeat(e: Event, n: nat): (log: seq<Event>)
    ensures |log| == n
    ensures forall i :: 0 <= i < n ==> log[i] == e
  {
    if n == 0 then [] else [e] + Repeat(e, n - 1)
  }

  lemma {:induction false} CountRepeat(e: Event, n: nat, other: Event)
    ensures Count(Repeat(e, n), e) == n
    ensures other != e ==> Count(Repeat(e, n), other) == 0
    decreases n
  {
    if n > 0 {
      assert Repeat(e, n)[1..] == Repeat(e, n - 1);
      CountRepeat(e, n - 1, other);
    }
  }

  /** How the reactions of a log add up over three consecutive parts. */
  lemma CountLog3(a: seq<Event>, b: seq<Event>, c: seq<Event>)
    ensures forall e :: Count(a + b + c, e) == Count(a, e) + Count(b, e) + Count(c, e)
  {
    forall e: Event ensures Count(a + b + c, e) == Count(a, e) + Count(b, e) + Count(c, e) {
      CountAppend(a + b, c, e);
      CountAppend(a, b, e);
    }
  }
}
