/**
  Properties of the button over whole event sequences: the pseudo-class a
  button shows when not pressed, the press/release round trip, and where
  "clicked" emissions can come from.
 */
module ButtonLemmas {
  import opened Optional
  import opened ButtonState

  /** The events and calls that reach a button. */
  datatype Event =
    | Press(button: nat)
    | Release(button: nat)
    | EnterEvent
    | LeaveEvent
    | SetCheckedCall(checked: bool)
    | SetToggleModeCall(toggle: bool)
    | SetLabelCall(text: Option<string>)

  function Step(s: State, e: Event): State
  {
    match e
    case Press(b) => ButtonPress(s, b).state
    case Release(b) => ButtonRelease(s, b).state
    case EnterEvent => Enter(s)
    case LeaveEvent => Leave(s)
    case SetCheckedCall(c) => SetChecked(s, c)
    case SetToggleModeCall(t) => SetToggleMode(s, t)
    case SetLabelCall(t) => SetLabel(s, t)
  }

  function Run(s: State, events: seq<Event>): State
    decreases |events|
  {
    if events == [] then s else Run(Step(s, events[0]), events[1..])
  }

  /** A button that is not pressed shows "checked" if checked, else "hover" if hovered, else nothing. */
  predicate RestingConsistent(s: State)
  {
    !s.pressed ==> s.pseudo == Resting(s.checked, s.hover)
  }

  lemma {:induction false} StepKeepsResting(s: State, e: Event)
    requires RestingConsistent(s)
    ensures RestingConsistent(Step(s, e))
  {
    match e
    case Release(b) =>
      if b == 1 && s.pressed {
        var r := ButtonRelease(s, b).state;
        assert r.pseudo == Resting(r.checked, r.hover);
      }
    case _ =>
  }

  /** Every state a fresh button can reach keeps the resting pseudo-class rule. */
  lemma {:induction false} RunKeepsResting(s: State, events: seq<Event>)
    requires RestingConsistent(s)
    ensures RestingConsistent(Run(s, events))
    decreases |events|
  {
    if events != [] {
      StepKeepsResting(s, events[0]);
      RunKeepsResting(Step(s, events[0]), events[1..]);
    }
  }

  lemma ReachableResting(events: seq<Event>)
    ensures RestingConsistent(Run(Initial(), events))
  {
    RunKeepsResting(Initial(), events);
  }

  /**
    Outside toggle mode, a button-1 press and release on a resting button
    gives back the same state, with one "clicked" emission logged.
   */
  lemma ClickRoundTrip(s: State)
    requires RestingConsistent(s) && !s.pressed && !s.toggle
    ensures ButtonRelease(ButtonPress(s, 1).state, 1).state == s.(log := s.log + [ClickedSignal])
  {
  }

  /**
    In toggle mode a click flips the checked state, and two clicks restore
    it along with the pseudo-class, with two "clicked" emissions logged.
   */
  lemma {:induction false} ToggleTwiceRestores(s: State)
    requires RestingConsistent(s) && !s.pressed && s.toggle
    ensures var once := ButtonRelease(ButtonPress(s, 1).state, 1).state;
            var twice := ButtonRelease(ButtonPress(once, 1).state, 1).state;
              && once.checked == !s.checked
              && twice == s.(log := s.log + [CheckedNotify, ClickedSignal, CheckedNotify, ClickedSignal])
  {
    var once := ButtonRelease(ButtonPress(s, 1).state, 1).state;
    var twice := ButtonRelease(ButtonPress(once, 1).state, 1).state;
    assert once.log == s.log + [CheckedNotify, ClickedSignal];
    assert twice.log == once.log + [CheckedNotify, ClickedSignal];
  }

  /** Leaving cancels a press: a release that follows is not handled and nothing is clicked. */
  lemma LeaveCancelsClick(s: State, b: nat)
    ensures var l := Leave(s);
              !ButtonRelease(l, b).handled && ButtonRelease(l, b).state == l && l.log == s.log
  {
  }

  /**
    While held, a button can show "hover": entering it after the press
    replaces "active", since enter sets "hover" whenever not checked.
   */
  lemma EnterWhilePressedShowsHover()
    ensures var p := ButtonPress(Initial(), 1).state;
              p.pseudo == Active && Enter(p).pressed && Enter(p).pseudo == Hover
  {
  }

  /** The number of "clicked" emissions in a log. */
  function Clicks(log: seq<Notice>): nat
    decreases |log|
  {
    if log == [] then 0
    else Clicks(log[..|log| - 1]) + (if log[|log| - 1] == ClickedSignal then 1 else 0)
  }

  lemma {:induction false} ClicksAppend(a: seq<Notice>, b: seq<Notice>)
    ensures Clicks(a + b) == Clicks(a) + Clicks(b)
    decreases |b|
  {
    if b == [] {
      assert a + b == a;
    } else {
      var b' := b[..|b| - 1];
      assert (a + b)[..|a + b| - 1] == a + b';
      assert (a + b)[|a + b| - 1] == b[|b| - 1];
      ClicksAppend(a, b');
    }
  }

  /** The number of button-1 releases in an event sequence. */
  function Releases(events: seq<Event>): nat
    decreases |events|
  {
    if events == [] then 0
    else (if events[0] == Release(1) then 1 else 0) + Releases(events[1..])
  }

  /** What one event appends to the log. */
  function Emitted(s: State, e: Event): seq<Notice>
  {
    match e
    case Release(b) =>
      if b == 1 && s.pressed then (if s.toggle then [CheckedNotify] else []) + [ClickedSignal] else []
    case SetCheckedCall(_) => [CheckedNotify]
    case SetToggleModeCall(_) => [ToggleModeNotify]
    case SetLabelCall(_) => [LabelNotify]
    case _ => []
  }

  lemma StepLog(s: State, e: Event)
    ensures Step(s, e).log == s.log + Emitted(s, e)
  {
  }

  lemma {:induction false} EmittedClicks(s: State, e: Event)
    ensures Clicks(Emitted(s, e)) == (if e == Release(1) && s.pressed then 1 else 0)
  {
    var added := Emitted(s, e);
    if e == Release(1) && s.pressed && s.toggle {
      assert added[..1] == [CheckedNotify];
      assert Clicks([CheckedNotify]) == 0 by { assert [CheckedNotify][..0] == []; }
    } else if added != [] {
      assert |added| == 1 && added[..0] == [];
    }
  }

  /** Each event adds at most one "clicked", and only a button-1 release after a press adds one. */
  lemma {:induction false} StepClicks(s: State, e: Event)
    ensures Clicks(Step(s, e).log) == Clicks(s.log) + (if e == Release(1) && s.pressed then 1 else 0)
  {
    StepLog(s, e);
    ClicksAppend(s.log, Emitted(s, e));
    EmittedClicks(s, e);
  }

  /** The button-1 releases in `events` that find the button pressed, replayed from `s`. */
  function PressedReleases(s: State, events: seq<Event>): nat
    decreases |events|
  {
    if events == [] then 0
    else (if events[0] == Release(1) && s.pressed then 1 else 0) + PressedReleases(Step(s, events[0]), events[1..])
  }

  /** Across any event sequence, "clicked" is emitted exactly once per button-1 release that finds the button pressed. */
  lemma {:induction false} ClicksCountPressedReleases(s: State, events: seq<Event>)
    ensures Clicks(Run(s, events).log) == Clicks(s.log) + PressedReleases(s, events)
    decreases |events|
  {
    if events != [] {
      StepClicks(s, events[0]);
      ClicksCountPressedReleases(Step(s, events[0]), events[1..]);
    }
  }

  /** Only a button-1 release can find the button pressed and count. */
  lemma {:induction false} PressedReleasesAtMostReleases(s: State, events: seq<Event>)
    ensures PressedReleases(s, events) <= Releases(events)
    decreases |events|
  {
    if events != [] {
      PressedReleasesAtMostReleases(Step(s, events[0]), events[1..]);
    }
  }

  /** "clicked" is emitted at most once per button-1 release, and never otherwise. */
  lemma {:induction false} ClicksBoundedByReleases(s: State, events: seq<Event>)
    ensures Clicks(Run(s, events).log) <= Clicks(s.log) + Releases(events)
  {
    ClicksCountPressedReleases(s, events);
    PressedReleasesAtMostReleases(s, events);
  }
}
