/** Button A: an active-low push button whose press toggles the status LED. */
module ButtonA {

  /** The LED toggle and the level the button had at the previous poll (1 = released). */
  datatype ButtonState = ButtonState(rgbOn: bool, last: int)

  /** A press is a falling edge: low now, high at the previous poll. */
  predicate Pressed(b: ButtonState, level: int)
  {
    level == 0 && b.last == 1
  }

  /** One poll: the toggle flips exactly on a falling edge, and the level is remembered
      whatever happened. */
  function ButtonStep(b: ButtonState, level: int): (r: ButtonState)
    ensures r.last == level
    ensures r.rgbOn != b.rgbOn <==> Pressed(b, level)
  {
    ButtonState(if level == 0 && b.last == 1 then !b.rgbOn else b.rgbOn, level)
  }

  /** The state after polling the button at each of `levels` in turn. */
  function PollButton(b: ButtonState, levels: seq<int>): (r: ButtonState)
    ensures levels == [] ==> r == b
    ensures levels != [] ==> r.last == levels[|levels| - 1]
    decreases |levels|
  {
    if levels == [] then b else PollButton(ButtonStep(b, levels[0]), levels[1..])
  }

  predicate AllAre(levels: seq<int>, level: int)
  {
    forall i :: 0 <= i < |levels| ==> levels[i] == level
  }

  lemma {:induction false} PollButtonAppend(b: ButtonState, xs: seq<int>, ys: seq<int>)
    ensures PollButton(b, xs + ys) == PollButton(PollButton(b, xs), ys)
    decreases |xs|
  {
    if xs == [] {
      assert xs + ys == ys;
    } else {
      assert (xs + ys)[0] == xs[0];
      assert (xs + ys)[1..] == xs[1..] + ys;
      PollButtonAppend(ButtonStep(b, xs[0]), xs[1..], ys);
    }
  }

  /** Polls that repeat the remembered level change nothing. */
  lemma {:induction false} SteadyLevelNoToggle(b: ButtonState, levels: seq<int>)
    requires AllAre(levels, b.last)
    ensures PollButton(b, levels) == b
    decreases |levels|
  {
    if levels != [] {
      assert ButtonStep(b, levels[0]) == b;
      SteadyLevelNoToggle(b, levels[1..]);
    }
  }

  /** Holding the button down for any number of polls toggles exactly once. */
  lemma {:induction false} HeldLowTogglesOnce(b: ButtonState, levels: seq<int>)
    requires b.last == 1
    requires |levels| >= 1 && AllAre(levels, 0)
    ensures PollButton(b, levels) == ButtonState(!b.rgbOn, 0)
  {
    var pressed := ButtonStep(b, levels[0]);
    assert pressed == ButtonState(!b.rgbOn, 0);
    SteadyLevelNoToggle(pressed, levels[1..]);
  }

  /** A whole press-and-release cycle, however many polls each phase lasts, toggles once
      and leaves the button remembered as released. */
  lemma {:induction false} PressReleaseTogglesOnce(b: ButtonState, before: seq<int>, held: seq<int>, after: seq<int>)
    requires b.last == 1
    requires AllAre(before, 1) && AllAre(after, 1)
    requires |held| >= 1 && AllAre(held, 0)
    requires |after| >= 1
    ensures PollButton(b, before + held + after) == ButtonState(!b.rgbOn, 1)
  {
    PollButtonAppend(b, before + held, after);
    PollButtonAppend(b, before, held);
    SteadyLevelNoToggle(b, before);
    HeldLowTogglesOnce(b, held);
    var down := ButtonState(!b.rgbOn, 0);
    var up := ButtonStep(down, after[0]);
    assert up == ButtonState(!b.rgbOn, 1);
    SteadyLevelNoToggle(up, after[1..]);
  }
}
