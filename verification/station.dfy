/** The station's control loop: the globals of the firmware as the fields of one object,
    the helper routines that update them, and one iteration of the main loop. */
module Station {
  import opened Wrappers
  import opened AirQuality
  import opened Joystick
  import opened Menu
  import opened ButtonA
  import opened Wind

  /** The hardware read at the top of one loop iteration: the air-quality ADC, the
      joystick X ADC, the level of button A and the millisecond clock. */
  datatype Tick = Tick(airValue: int, joystickX: int, buttonA: int, now: int)

  /** The readings taken while drawing the menu: the DHT11 temperature and humidity
      (None when the sensor fails), a second read of the air-quality ADC and the clock
      as seen by the RPM evaluation. Only the one the selected entry needs is used. */
  datatype DisplayReadings = DisplayReadings(
    temperature: Option<int>, humidity: Option<int>, airValue: int, now: int)

  /** The data line under the title. KmhLine holds the rate that would be converted. */
  datatype Line =
    | TemperatureLine(celsius: Option<int>)
    | HumidityLine(percent: Option<int>)
    | AirLine(status: string, value: int)
    | RpmLine(rpm: nat)
    | KmhLine(rpm: nat)

  datatype Screen = Screen(title: string, line: Line)

  predicate IsWind(item: MenuItem)
  {
    item == WindRpm || item == WindKmh
  }

  /** What the display shows for an entry, given the readings and the rate in force
      once the entry's own readings have been taken. */
  function Shown(item: MenuItem, d: DisplayReadings, rpm: nat): (s: Screen)
    ensures s.title == Title(item)
    ensures s.line.AirLine? <==> item == AirQualityItem
    ensures s.line.AirLine? ==> s.line.status == Label(Classify(d.airValue)) && s.line.value == d.airValue
    ensures item == Temperature ==> s.line == TemperatureLine(d.temperature)
    ensures item == Humidity ==> s.line == HumidityLine(d.humidity)
    ensures s.line.RpmLine? <==> item == WindRpm
    ensures s.line.KmhLine? <==> item == WindKmh
    ensures IsWind(item) ==> s.line.rpm == rpm
  {
    Screen(Title(item),
      match item
      case Temperature => TemperatureLine(d.temperature)
      case Humidity => HumidityLine(d.humidity)
      case AirQualityItem => AirLine(Label(Classify(d.airValue)), d.airValue)
      case WindRpm => RpmLine(rpm)
      case WindKmh => KmhLine(rpm))
  }

  class Station {
    var menuIndex: int
    var lastMove: int
    var rgbOn: bool
    var lastButtonA: int
    var ledR: int
    var ledG: int
    var ledB: int
    var pulses: nat
    var lastRpmRead: int
    var rpm: nat

    ghost predicate Valid()
      reads this
    {
      0 <= menuIndex < ItemCount
    }

    function Leds(): Rgb
      reads this
    {
      Rgb(ledR, ledG, ledB)
    }

    function NavState(): Nav
      reads this
    {
      Nav(menuIndex, lastMove)
    }

    function Button(): ButtonState
      reads this
    {
      ButtonState(rgbOn, lastButtonA)
    }

    function WindCounter(): WindState
      reads this
    {
      WindState(pulses, lastRpmRead, rpm)
    }

    /** Start-up: first entry selected, LED enabled, button released, no edges counted
        and no rate yet. Both timers start at the clock read at start-up; the LED pins
        start dark. */
    constructor (moveStart: int, rpmStart: int)
      ensures Valid()
      ensures NavState() == Nav(0, moveStart)
      ensures Button() == ButtonState(true, 1)
      ensures WindCounter() == WindState(0, rpmStart, 0)
      ensures Leds() == Off
    {
      menuIndex := 0;
      rgbOn := true;
      lastMove := moveStart;
      lastButtonA := 1;
      pulses := 0;
      lastRpmRead := rpmStart;
      rpm := 0;
      ledR, ledG, ledB := 0, 0, 0;
    }

    /** Drives the LED with (r, g, b) while the toggle is on and dark otherwise. */
    method SetRgbColor(r: int, g: int, b: int)
      modifies this`ledR, this`ledG, this`ledB
      ensures rgbOn ==> Leds() == Rgb(r, g, b)
      ensures !rgbOn ==> Leds() == Off
    {
      if rgbOn {
        ledR := r;
        ledG := g;
        ledB := b;
      } else {
        ledR := 0;
        ledG := 0;
        ledB := 0;
      }
    }

    /** Classifies a reading, applies its colour to the LED and returns its label. */
    method AirQualityStatus(val: int) returns (status: string)
      modifies this`ledR, this`ledG, this`ledB
      ensures status == Label(Classify(val))
      ensures Leds() == Indicator(rgbOn, val)
    {
      if val < 15000 {
        SetRgbColor(0, 1, 0);
        status := "Boa";
      } else if val < 30000 {
        SetRgbColor(1, 1, 0);
        status := "Moderada";
      } else if val < 45000 {
        SetRgbColor(1, 0, 0);
        status := "Ruim";
      } else {
        SetRgbColor(1, 0, 0);
        status := "Péssima";
      }
    }

    /** The encoder edge handler, run between loop iterations. */
    method CountPulse()
      modifies this`pulses
      ensures WindCounter() == CountEdge(old(WindCounter()))
    {
      pulses := pulses + 1;
    }

    /** Evaluates the edge count at `now` and returns the rate in force. */
    method ReadRpm(now: int) returns (r: nat)
      modifies this`pulses, this`lastRpmRead, this`rpm
      ensures WindCounter() == Evaluate(old(WindCounter()), now)
      ensures r == rpm
    {
      if now - lastRpmRead >= RpmWindow {
        var revolutionsTimes60 := pulses * 60;
        rpm := revolutionsTimes60 / PulsesPerRevolution;
        pulses := 0;
        lastRpmRead := now;
      }
      r := rpm;
    }

    /** Draws the selected entry. The air-quality entry re-applies the LED for its own
        reading and the wind entries evaluate the edge count; other entries change nothing. */
    method DrawMenu(d: DisplayReadings) returns (screen: Screen)
      requires Valid()
      modifies this`ledR, this`ledG, this`ledB, this`pulses, this`lastRpmRead, this`rpm
      ensures Valid()
      ensures screen == Shown(ItemAt(menuIndex), d, rpm)
      ensures ItemAt(menuIndex) == AirQualityItem ==> Leds() == Indicator(rgbOn, d.airValue)
      ensures ItemAt(menuIndex) != AirQualityItem ==> Leds() == old(Leds())
      ensures WindCounter() ==
        if IsWind(ItemAt(menuIndex)) then Evaluate(old(WindCounter()), d.now) else old(WindCounter())
    {
      var item := ItemAt(menuIndex);
      var title := Title(item);
      match item
      case Temperature =>
        screen := Screen(title, TemperatureLine(d.temperature));
      case Humidity =>
        screen := Screen(title, HumidityLine(d.humidity));
      case AirQualityItem =>
        var status := AirQualityStatus(d.airValue);
        screen := Screen(title, AirLine(status, d.airValue));
      case WindRpm =>
        var value := ReadRpm(d.now);
        screen := Screen(title, RpmLine(value));
      case WindKmh =>
        var value := ReadRpm(d.now);
        screen := Screen(title, KmhLine(value));
    }

    /** One iteration of the main loop: show the air status, navigate, poll button A
        (re-applying the status on a toggle) and draw the menu. */
    method Step(tick: Tick, d: DisplayReadings) returns (screen: Screen)
      requires Valid()
      modifies this
      ensures Valid()
      ensures NavState() == Navigate(old(NavState()), ReadDirection(tick.joystickX), tick.now)
      ensures Button() == ButtonStep(old(Button()), tick.buttonA)
      ensures Leds() == Indicator(rgbOn,
        if ItemAt(menuIndex) == AirQualityItem then d.airValue else tick.airValue)
      ensures WindCounter() ==
        if IsWind(ItemAt(menuIndex)) then Evaluate(old(WindCounter()), d.now) else old(WindCounter())
      ensures screen == Shown(ItemAt(menuIndex), d, rpm)
    {
      ghost var nav0, button0, wind0 := NavState(), Button(), WindCounter();
      var airVal := tick.airValue;
      var _ := AirQualityStatus(airVal);

      var direction := ReadDirection(tick.joystickX);
      var now := tick.now;
      if direction == Right && now - lastMove > Cooldown {
        menuIndex := (menuIndex + 1) % ItemCount;
        lastMove := now;
      } else if direction == Left && now - lastMove > Cooldown {
        menuIndex := (menuIndex - 1) % ItemCount;
        lastMove := now;
      }
      assert NavState() == Navigate(nav0, direction, now);

      var buttonAState := tick.buttonA;
      if buttonAState == 0 && lastButtonA == 1 {
        rgbOn := !rgbOn;
        var _ := AirQualityStatus(airVal);
      }
      lastButtonA := buttonAState;
      assert Button() == ButtonStep(button0, buttonAState);
      assert Leds() == Indicator(rgbOn, airVal);
      assert WindCounter() == wind0;

      screen := DrawMenu(d);
    }
  }
}
