/** The horizontal axis of the analog joystick, read as a direction. */
module Joystick {

  datatype Direction = Left | Right | Center

  const RightAbove := 50000
  const LeftBelow := 10000

  /** Threshold mapping of the raw X value; both thresholds themselves read as centre. */
  function ReadDirection(x: int): (d: Direction)
    ensures d == Right <==> x > RightAbove
    ensures d == Left <==> x < LeftBelow
    ensures d == Center <==> LeftBelow <= x <= RightAbove
  {
    if x > RightAbove then Right
    else if x < LeftBelow then Left
    else Center
  }
}
