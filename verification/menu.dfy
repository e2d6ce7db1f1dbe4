/** The START/STOP menu shown before the game of v3 and v4: UP or DOWN moves
    the selection to the other entry, RETURN acts on the selected entry. */
module Menu {
  import opened Reactions

  datatype Selection = Start | Stop

  datatype MenuKey = Up | Down | Return | OtherKey

  /** How the menu ends: the game starts, or the program exits. */
  datatype Outcome = Playing | Exiting

  /** The menu state after some keys: still open with a selection, or closed. */
  datatype MenuState = Open(selection: Selection) | Closed(outcome: Outcome)

  function Toggle(s: Selection): (t: Selection)
    ensures t != s
  {
    if s == Start then Stop else Start
  }

  /** Toggling twice restores the selection. */
  lemma ToggleInvolution(s: Selection)
    ensures Toggle(Toggle(s)) == s
  {
  }

  /** What the menu says on closing: nothing unless the robot is connected. */
  function Speech(connected: bool, phrase: Phrase): (log: seq<Event>)
    ensures |log| <= 1 && (connected <==> log == [Say(phrase)])
  {
    if connected then [Say(phrase)] else []
  }

  /** One key press on the open menu; the closing line is only spoken when the
      robot is connected. */
  function Press(s: Selection, key: MenuKey, connected: bool): (r: Step<MenuState>)
    ensures (key == Up || key == Down) ==> r.state == Open(Toggle(s)) && r.events == []
    ensures key == OtherKey ==> r.state == Open(s) && r.events == []
    ensures key == Return && s == Start ==> r.state == Closed(Playing) && r.events == Speech(connected, LetsPlay)
    ensures key == Return && s == Stop ==> r.state == Closed(Exiting) && r.events == Speech(connected, Goodbye)
    ensures !connected ==> r.events == []
  {
    match key
    case Up => Step(Open(Toggle(s)), [])
    case Down => Step(Open(Toggle(s)), [])
    case Return =>
      if s == Start then Step(Closed(Playing), Speech(connected, LetsPlay))
      else Step(Closed(Exiting), Speech(connected, Goodbye))
    case OtherKey => Step(Open(s), [])
  }

  /** The menu loop over a sequence of key presses; keys after it closes are
      not read. */
  function Loop(s: Selection, keys: seq<MenuKey>, connected: bool): Step<MenuState>
    decreases |keys|
  {
    if |keys| == 0 then Step(Open(s), [])
    else
      var first := Press(s, keys[0], connected);
      match first.state
      case Closed(_) => first
      case Open(t) =>
        var rest := Loop(t, keys[1..], connected);
        Step(rest.state, first.events + rest.events)
  }

  /** Number of UP/DOWN presses. */
  function Toggles(keys: seq<MenuKey>): nat
  {
    if |keys| == 0 then 0 else (if keys[0] == Up || keys[0] == Down then 1 else 0) + Toggles(keys[1..])
  }

  /** Applies `Toggle` `n` times. */
  function ToggleN(s: Selection, n: nat): (t: Selection)
    ensures t == s <==> n % 2 == 0
  {
    if n == 0 then s else Toggle(ToggleN(s, n - 1))
  }

  /** Without RETURN the menu stays open, speaks nothing, and its selection is
      the start selection toggled once per UP/DOWN press. */
  lemma {:induction false} LoopWithoutReturn(s: Selection, keys: seq<MenuKey>, connected: bool)
    requires Return !in keys
    ensures Loop(s, keys, connected).state == Open(ToggleN(s, Toggles(keys)))
    ensures Loop(s, keys, connected).events == []
    decreases |keys|
  {
    if |keys| > 0 {
      var t := Press(s, keys[0], connected).state.selection;
      assert Return !in keys[1..];
      LoopWithoutReturn(t, keys[1..], connected);
      if keys[0] == Up || keys[0] == Down {
        ToggleNShift(s, Toggles(keys[1..]));
      }
    }
  }

  lemma {:induction false} ToggleNShift(s: Selection, n: nat)
    ensures ToggleN(Toggle(s), n) == ToggleN(s, n + 1)
    decreases n
  {
    if n > 0 {
      ToggleNShift(s, n - 1);
    }
  }

  /** The menu closes at the first RETURN: the game starts exactly when an even
      number of UP/DOWN presses came before it (counting from START), and the
      only thing said is the matching greeting or farewell, and only to a
      connected robot. */
  lemma MenuDecision(keys: seq<MenuKey>, k: nat, connected: bool)
    requires k < |keys| && keys[k] == Return && Return !in keys[..k]
    ensures Loop(Start, keys, connected).state == Closed(if Toggles(keys[..k]) % 2 == 0 then Playing else Exiting)
    ensures Loop(Start, keys, connected).events ==
              if connected then [Say(if Toggles(keys[..k]) % 2 == 0 then LetsPlay else Goodbye)] else []
  {
    LoopSplit(Start, keys[..k], keys[k..], connected);
    assert keys[..k] + keys[k..] == keys;
    LoopWithoutReturn(Start, keys[..k], connected);
  }

  lemma {:induction false} LoopSplit(s: Selection, a: seq<MenuKey>, b: seq<MenuKey>, connected: bool)
    requires Return !in a
    ensures Loop(s, a, connected).state.Open?
    ensures Loop(s, a + b, connected) ==
              Step(Loop(Loop(s, a, connected).state.selection, b, connected).state,
                   Loop(s, a, connected).events + Loop(Loop(s, a, connected).state.selection, b, connected).events)
    decreases |a|
  {
    if |a| == 0 {
      assert a + b == b;
    } else {
      assert (a + b)[1..] == a[1..] + b;
      assert Return !in a[1..];
      var t := Press(s, a[0], connected).state.selection;
      LoopSplit(t, a[1..], b, connected);
    }
  }
}
