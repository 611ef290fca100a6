# Weather station control loop

A model of the control logic in the MicroPython firmware of a small weather station
(`main.py`). The station reads a DHT11 temperature and humidity sensor, an MQ-135
air-quality sensor on an ADC, and a wind encoder whose edges raise an interrupt. It
shows one of five menu entries on an OLED display. The joystick moves through the
entries and button A turns the RGB status LED on and off.

The model keeps the firmware's globals (`menu_index`, `last_move`, `rgb_on`,
`last_button_a`, the three LED outputs, `pulsos`, `ultima_leitura_rpm`, `rpm`) as the
fields of one class, `Station.Station`. The firmware's helper routines are methods of
that class, and one iteration of the `while True` loop is `Step`. Every hardware reading
is a parameter: the `Tick` taken at the top of the loop and the `DisplayReadings` taken
while the menu is drawn. The threshold and wrap-around logic lives in pure modules:

- `AirQuality`: the four bands, their labels and LED colours.
- `Joystick`: the direction read from the X axis.
- `Menu`: the entries and navigation with the shared 500 ms cooldown.
- `ButtonA`: the falling-edge toggle.
- `Wind`: the edge counter and the 1000 ms rate evaluation.

The methods are proved against these modules, and the properties are proved as lemmas
about them.

Time is an unbounded integer, and `ticks_diff(a, b)` is read as `a - b`. The rate is
evaluated only while a wind entry is on the display, so the evaluation window is the
time since the last evaluation. It is not a fixed period.

Three details of the code shape the model:
- The rate is truncated with `int()`, not rounded.
- A toggle of button A re-applies the colour of the current loop's air reading.
- Drawing the air-quality entry reads the ADC a second time and drives the LED from that
  second reading.

## Model

| member | source | states |
|---|---|---|
| `AirQuality.Classify` | main.py:106-118 | each band is a half-open interval (below 15000, [15000,30000), [30000,45000), from 45000); a boundary value belongs to the higher band; stated as four if-and-only-ifs |
| `AirQuality.Label` | main.py:106-118 | each band's status text is non-empty and fits one 16-character line of the display |
| `AirQuality.Color` | main.py:106-118 | every colour is three bits with blue off; green is lit exactly for the good and moderate bands, red exactly for moderate and worse |
| `AirQuality.Indicator` | main.py:58-66 | the gated LED command is three bits with blue off, dark exactly when the toggle is off; when on, red is lit exactly from 15000 and green exactly below 30000 |
| `AirQuality.IndicatorCommand` | main.py:106-118 | the LED command is three bits, dark exactly when the toggle is off; when on it is green, yellow, or red for both of the worst bands |
| `AirQuality.LabelDeterminesBand` | main.py:106-118 | the four labels are distinct, so the displayed label identifies the band |
| `AirQuality.VeryPoorScenario` | main.py:116-118 | a reading of 50000 is the worst band, labelled "Péssima", shown (1,0,0) |
| `AirQuality.DisabledGoodScenario` | main.py:58-66 | with the toggle off, a good reading gives (0,0,0) and not green |
| `Joystick.ReadDirection` | main.py:152-159 | right if and only if x > 50000; left if and only if x < 10000; centre if and only if 10000 <= x <= 50000 (both thresholds are centre) |
| `Menu.ItemAt` | main.py:41-47 | the five entries in order; the wind entries are exactly those from index 3 |
| `Menu.Title` | main.py:41-47 | each title is non-empty and fits the 16-character top line of the display |
| `Menu.TitlesDistinct` | main.py:41-47 | two entries have the same title only if they are the same entry, so choosing by title picks the entry |
| `Menu.Navigate` | main.py:171-176 | the index stays in [0,5); a move happens only off-centre and when strictly more than 500 ms have passed, and then stamps the time; otherwise nothing changes; right from 4 gives 0, left from 0 gives 4 |
| `Menu.NavigateAll` | main.py:163-176 | navigation over successive loop iterations keeps the index in range |
| `Menu.CooldownFreezesNavigation` | main.py:171-176 | polls no later than 500 ms after the last move leave index and time unchanged, whatever their direction |
| `Menu.OneMovePerCooldown` | main.py:171-176 | an accepted move followed by any polls within 500 ms of it moves the selection exactly once, in either direction |
| `Menu.SpacedMovesWrapAround` | main.py:171-176 | k moves in one direction, each more than 500 ms after the one before, leave the selection k places on (right) or back (left) modulo 5, stamped with the last poll's time |
| `Menu.FiveMovesWrapAround` | main.py:171-176 | five such moves to the right, or five to the left, come back to the starting entry |
| `ButtonA.ButtonStep` | main.py:179-183 | the toggle flips if and only if the level is 0 and the previous level was 1; the level is remembered on every poll |
| `ButtonA.PollButton` | main.py:179-183 | after successive polls the remembered level is the last one polled, and no polls change nothing |
| `ButtonA.SteadyLevelNoToggle` | main.py:179-183 | polls that repeat the remembered level change nothing |
| `ButtonA.HeldLowTogglesOnce` | main.py:179-183 | holding the button low for any number of polls toggles exactly once |
| `ButtonA.PressReleaseTogglesOnce` | main.py:179-183 | a press-and-release cycle of any length toggles once and ends remembered as released |
| `Wind.RpmOf` | main.py:99-100 | the count over 20 edges per revolution, times 60, is 3 RPM per edge |
| `Wind.CountEdge` | main.py:20-22 | an edge adds exactly one to the count and changes nothing else |
| `Wind.Evaluate` | main.py:95-103 | before 1000 ms have elapsed everything is kept; from 1000 ms the rate becomes 3 times the count, the count resets to 0 and the window restarts at now |
| `Wind.Run` | main.py:95-103 | under any mix of edges and evaluations the window start never moves back, and the count never exceeds the edges held plus the edges among the events |
| `Wind.EarlyEvaluationsKeepCount` | main.py:95-103 | evaluations inside the window lose no edge: the count grows by the number of edges and the held rate and window start are kept |
| `Wind.EdgesThenEvaluation` | main.py:95-103 | k edges followed by an evaluation after the window give a rate of 3 times all edges since the last evaluation and a zero count |
| `Wind.FortyPulsesScenario` | main.py:95-103 | 40 edges in one window give 120 RPM |
| `Station.Shown` | main.py:121-149 | the title is the entry's; temperature and humidity show their DHT readings; the air entry shows the label and value of its own reading; the RPM entry shows an RPM line and the km/h entry a km/h line, both of the rate in force |
| `Station.Station.constructor` | main.py:48-53 | start-up state: first entry, LED enabled, button released, no edges, rate 0, both timers at the start-up clock |
| `Station.Station.SetRgbColor` | main.py:58-66 | with the toggle on, the outputs equal (r,g,b); with it off, all three are 0 whatever the arguments |
| `Station.Station.AirQualityStatus` | main.py:106-118 | returns the band's label and leaves the LED at the gated colour of the reading |
| `Station.Station.CountPulse` | main.py:20-22 | the counter becomes one edge later than before |
| `Station.Station.ReadRpm` | main.py:95-103 | the counter becomes `Evaluate` of the old counter at now, and the rate in force is returned |
| `Station.Station.DrawMenu` | main.py:121-149 | shows the selected entry; only the air entry drives the LED, from its own reading; only the wind entries evaluate the counter |
| `Station.Station.Step` | main.py:163-185 | one loop iteration: the menu follows `Navigate` and the button follows `ButtonStep`; the LED shows the gated colour of the last reading classified, after a toggle too; the counter is evaluated only on a wind entry; the screen is that of the new entry |

## Left out

- Hardware set-up (main.py:10-37): the I2C bus, display, DHT11, ADC and pin drivers are not modelled. Their readings are parameters.
- `read_temperature` and `read_humidity` (main.py:75-88) are inputs of type `Option<int>`. None stands for the failed measurement shown as "--". The two separate DHT11 measurements are not modelled.
- `read_air_quality` (main.py:91-92) is an input that may hold any integer. The ADC's range of 0 to 65535 is not assumed.
- `calcular_kmh` (main.py:69-72) uses floating-point arithmetic and rounds to one decimal, so it is left out. The km/h screen carries the rate it would convert.
- The display text (`oled.fill`, `oled.text`, `oled.show` and the f-strings) is reduced to a title and a data line.
- The entry is chosen by comparing title strings. The model dispatches on the index, which selects the same entry because the five titles are distinct (`Menu.TitlesDistinct`).
- The edge interrupt (main.py:23) can preempt the loop. In the model `CountPulse` runs between loop iterations, so a lost update during the reset of the count is not modelled.
- `time.ticks_ms` wraps around and `time.sleep(0.1)` pauses the loop. Neither is modelled: time is an unbounded integer and no monotonic clock is assumed.
- `button_b`, `joystick_button` and `adc_y` (main.py:27-32) are never read, so they are not modelled.
- Wind.RpmOf: models `int(pulsos/20*60)` as the exact integer 3 times the count. Binary floating point cannot hold `pulsos/20` exactly, so the truncation in the source can give one less for some counts: in double precision 41 edges give 122, not 123.
- Station.Station.constructor: the source never sets the LED pins before the first loop iteration, so the model starts them at 0.
