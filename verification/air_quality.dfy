/** Air-quality banding of the MQ-135 reading and the colour of the status LED for each band. */
module AirQuality {

  /** The four severity bands of the raw 16-bit ADC reading. */
  datatype Band = Good | Moderate | Poor | VeryPoor

  /** A command for the three LED channels; each channel is driven with 0 or 1. */
  datatype Rgb = Rgb(r: int, g: int, b: int)

  const Off := Rgb(0, 0, 0)

  /** Upper (exclusive) limits of the three lower bands. */
  const ModerateFrom := 15000
  const PoorFrom := 30000
  const VeryPoorFrom := 45000

  /** The band of a reading: each band is a half-open interval and a boundary value
      belongs to the higher band. */
  function Classify(val: int): (b: Band)
    ensures b == Good <==> val < ModerateFrom
    ensures b == Moderate <==> ModerateFrom <= val < PoorFrom
    ensures b == Poor <==> PoorFrom <= val < VeryPoorFrom
    ensures b == VeryPoor <==> VeryPoorFrom <= val
  {
    if val < ModerateFrom then Good
    else if val < PoorFrom then Moderate
    else if val < VeryPoorFrom then Poor
    else VeryPoor
  }

  /** The text shown on the display for a band; it fits on one line of the 128-pixel
      display with its 8-pixel characters. */
  function Label(b: Band): (s: string)
    ensures 0 < |s| <= 16
  {
    match b
    case Good => "Boa"
    case Moderate => "Moderada"
    case Poor => "Ruim"
    case VeryPoor => "Péssima"
  }

  /** The colour asked of the LED for a band: green, yellow, and red for both worst bands.
      Blue is never lit, green means at most moderate, red means moderate or worse. */
  function Color(b: Band): (c: Rgb)
    ensures IsCommand(c) && c.b == 0
    ensures c.g == 1 <==> b == Good || b == Moderate
    ensures c.r == 1 <==> b != Good
  {
    match b
    case Good => Rgb(0, 1, 0)
    case Moderate => Rgb(1, 1, 0)
    case Poor => Rgb(1, 0, 0)
    case VeryPoor => Rgb(1, 0, 0)
  }

  predicate IsBit(x: int) { x == 0 || x == 1 }

  predicate IsCommand(c: Rgb) { IsBit(c.r) && IsBit(c.g) && IsBit(c.b) }

  /** What the LED shows once the status for `val` has been applied while the
      toggle is `on`: the band's colour, or every channel dark. */
  function Indicator(on: bool, val: int): (c: Rgb)
    ensures IsCommand(c) && c.b == 0
    ensures c == Off <==> !on
    ensures on ==> (c.r == 1 <==> val >= ModerateFrom)
    ensures on ==> (c.g == 1 <==> val < PoorFrom)
  {
    if on then Color(Classify(val)) else Off
  }

  /** Different bands get different labels, so the label determines the band. */
  lemma LabelDeterminesBand(b1: Band, b2: Band)
    ensures Label(b1) == Label(b2) <==> b1 == b2
  {
  }

  /** Every indicator command is a triple of bits, and it is dark exactly when the
      toggle is off; Poor and VeryPoor share one colour, the other bands have their own. */
  lemma IndicatorCommand(on: bool, val: int)
    ensures IsCommand(Indicator(on, val))
    ensures Indicator(on, val) == Off <==> !on
    ensures on && val < ModerateFrom ==> Indicator(on, val) == Rgb(0, 1, 0)
    ensures on && ModerateFrom <= val < PoorFrom ==> Indicator(on, val) == Rgb(1, 1, 0)
    ensures on && PoorFrom <= val ==> Indicator(on, val) == Rgb(1, 0, 0)
  {
  }

  /** A reading of 50000 is in the worst band, labelled "Péssima", shown red. */
  lemma VeryPoorScenario()
    ensures Classify(50000) == VeryPoor
    ensures Label(Classify(50000)) == "Péssima"
    ensures Indicator(true, 50000) == Rgb(1, 0, 0)
  {
  }

  /** With the toggle off a good reading leaves the LED dark rather than green. */
  lemma DisabledGoodScenario()
    ensures Classify(1000) == Good
    ensures Indicator(false, 1000) == Off
  {
  }
}
