# ESP32 air monitor: decision engine

A Dafny model of the decision core of a MicroPython air-quality monitor
(`main.py`). The device reads an MQ-135 gas sensor and a GP2Y1010AU0F
particulate sensor, classifies the air, and sends e-mail reports: a startup
report once, and a bad-air alert once per bad-air episode. The model covers:

- **Sensor conversions** (`sensors.dfy`, module `Sensors`). Raw 12-bit ADC code to
  voltage. The particulate density `0.172 * V - 0.0999` clamped at 0.
  `calculate_Rs` with its zero-voltage guard. `get_mq135_ppm` with its
  disabled-calibration guard and `A * pow(Rs/R0, B)`. `math.pow` is a
  parameter `pow: (real, real) -> real` whose value is left uninterpreted.
  Only its domain is modelled: like Python's `math.pow`, it raises a domain
  error for a zero base with a negative exponent and for a negative base with
  a non-integral exponent.
- **Classifiers** (`classifier.dfy`, module `Classifier`): the two threshold
  ladders over `real`, so the ties at 800, 1500, 0.15 and 0.50 are decided
  exactly.
- **Email policy** (`notification.dfy`, module `Notification`). `Step` is one
  tick of the email logic over the two flags `initial_email_sent` and
  `alert_email_sent`. Traces of ticks come with counting functions and
  lemmas: the startup report is delivered at most once and retried while it
  fails; at most one alert is delivered per bad-air episode; with a reliable
  network exactly one alert is attempted per episode.
- **Main loop** (`control_loop.dfy`, module `ControlLoop`). The class `AirMonitor`
  holds the two flags. `Tick` is one iteration of `while True`; `RunTicks` runs
  a finite prefix of that loop. A tick whose gas conversion raises is caught
  at the tick boundary and leaves both flags unchanged. So does a tick whose
  DHT11 read raises anything other than `OSError`. `LoopRunIsPolicyRun`
  shows that such faulted ticks are invisible to the email logic.
- **Constants** (`config.dfy`, module `Config`): ADC scale, reference voltage,
  load resistor and particulate thresholds. The MQ-135 calibration (R0, the
  completion flag, A and B) is a value, so the disabled branch can be stated.

Facts about main.py that the model makes explicit:

- The startup report (step A, main.py:351) and the alert (step B, main.py:362)
  are independent `if`s. A first online tick with bad air therefore attempts
  both reports (`Notification.BothReportsInOneTick`).
- Nothing guards `Rs <= 0` before `math.pow`. With the shipped calibration
  (B = -2.65), the gas readings 0 and ADC_MAX (4095) give `Rs == 0`, and
  `math.pow` raises a domain error. The handler at main.py:381-383 swallows
  it, so the rest of the tick is skipped (`Sensors.DeviceGasFault`,
  `ControlLoop.DeviceTickFaults`). This holds in floating point too: at
  ADC_MAX, `4095 * (3.3/4095)` rounds to exactly 3.3 in both single and
  double precision, so `Rs` is 0.0 on the device as well.
- For a gas reading of 2000, `Rs` is `10 * (4095/2000 - 1) = 10.475` kOhm in
  exact arithmetic (`Sensors.ResistanceAt2000`); double precision gives
  10.474999999999998.
- The `except` at main.py:320 catches only `OSError`. Any other exception from
  the DHT11 read reaches the handler at main.py:381-383 and faults the tick.

A consequence the proofs expose: with a 3.3 V full scale the particulate
density is at most `0.172 * 3.3 - 0.0999 = 0.4677`, below the 0.50 smoke
threshold. So `SMOKE/CRITICAL` is never reported, and on the device only the
gas level can make the air bad (`ControlLoop.DustNeverCritical`,
`ControlLoop.BadAirOnlyFromGas`).

## Model

| member | source | states |
|---|---|---|
| `Sensors.Voltage` | main.py:199 | the voltage of a raw code lies in [0, 3.3], is 0 exactly for code 0, and is 3.3 at ADC_MAX |
| `Sensors.VoltageMonotone` | main.py:199 | a larger raw code never gives a smaller voltage |
| `Sensors.DustDensity` | main.py:198-207 | the density is the clamp of the linear model: non-negative, no smaller than `0.172*v - 0.0999`, equal to it or to 0, and at most the full-scale density |
| `Sensors.DustDensityMonotone` | main.py:199-207 | the density is non-decreasing in the raw ADC value |
| `Sensors.DustDensityBelowSmoke` | main.py:199-207 | every density the conversion yields is below the 0.50 smoke threshold |
| `Sensors.SensorResistance` | main.py:223-231 | raw 0 gives exactly Rs = 0.0 through the voltage guard, with no division; for raw >= 1, Rs = R_LOAD * (ADC_MAX/raw - 1), the reference voltage cancelling |
| `Sensors.ResistanceNonNegative` | main.py:223-231 | Rs >= 0 for every raw code, and Rs == 0 exactly for raw 0 and raw ADC_MAX |
| `Sensors.ResistanceStrictlyDecreasing` | main.py:223-231 | over 1..ADC_MAX, Rs strictly decreases as raw grows |
| `Sensors.ResistanceAt2000` | main.py:223-231 | the gas reading 2000 gives Rs = 10.475 kOhm |
| `Sensors.MathPow` | main.py:241 | `math.pow` never fails on a positive base; on a zero base it fails iff the exponent is negative; on a negative base it fails iff the exponent is not an integer; otherwise its value is `pow(x, y)` |
| `Sensors.GasPpm` | main.py:233-243 | 0.0 whatever Rs when R0 <= 0 or calibration is incomplete; otherwise a domain error exactly when math.pow would raise on Rs/R0, and A * pow(Rs/R0, B) when it does not |
| `Sensors.DeviceGasFault` | main.py:223-243 | with the shipped calibration, converting a gas reading fails exactly for readings 0 and ADC_MAX |
| `Sensors.DeviceGasPpm` | main.py:233-243 | every other gas reading has Rs > 0 and yields 110 * pow(Rs/10, -2.65) |
| `Sensors.DevicePpmPositive` | main.py:239-241 | when pow is positive on positive bases, every PPM the device computes is positive |
| `Classifier.ClassifyGas` | main.py:245-252 | GOOD iff ppm <= 800, MODERATE iff 800 < ppm <= 1500, BAD iff ppm > 1500 |
| `Classifier.ClassifyDust` | main.py:212-221 | SMOKE/CRITICAL iff d >= 0.50, DUSTY/MODERATE iff 0.15 <= d < 0.50, CLEAN iff d < 0.15 |
| `Classifier.ClassifyGasMonotone` | main.py:245-252 | a larger PPM never yields a better gas level |
| `Classifier.ClassifyDustMonotone` | main.py:212-221 | a larger density never yields a better dust level |
| `Classifier.ClassifierBoundaries` | main.py:212-252 | the values at and just beyond each threshold fall on the documented sides |
| `Classifier.IsBadAir` | main.py:348 | the air is bad iff the gas level or the dust level is at its worst level |
| `Notification.Step` | main.py:348-377 | startup report attempted iff the flag is clear and the poll at line 351 is up; the flag is set afterwards iff it was set or that send succeeded; alert attempted iff the air is bad, the alert flag is clear and the poll at line 362 is up; silent reset iff the air is not bad and the flag is set; reset and alert never coincide; afterwards the alert flag is set iff the air is bad and it was set or the alert was delivered |
| `Notification.BothReportsInOneTick` | main.py:350-372 | a first online tick with bad air attempts both the startup report and the alert |
| `Notification.PolicyDecisions` | main.py:348-377 | one decision per tick; decision i is the one `Step` takes on tick i from the flags the first i ticks left |
| `Notification.InitialSentIff` | main.py:351-356 | after any trace the startup flag is set iff it was set before or some tick was connected and its send succeeded; it never resets |
| `Notification.InitialDeliveredAtMostOnce` | main.py:350-359 | over any trace the startup report is delivered once if the flag went from false to true, and otherwise never |
| `Notification.InitialRetriedWhileUndelivered` | main.py:351-358 | if every send fails the flag stays false and a startup report is attempted on every connected tick |
| `Notification.QuietStartup` | main.py:348-377 | online, with good air and a working transport, the startup report is attempted exactly once and no alert is attempted |
| `Notification.AlertInvariant` | main.py:361-377 | the alert flag is set only after a bad tick; delivered alerts, plus one for a current unalerted episode, never exceed the bad-air episodes |
| `Notification.AlertsAtMostOnePerEpisode` | main.py:361-377 | delivered alerts never exceed the number of maximal bad-air runs, whatever the network and transport do |
| `Notification.AlertsOnePerEpisodeWhenReliable` | main.py:361-377 | with connectivity always up and sends always succeeding, the alert flag equals "last tick was bad" and alerts attempted equal the bad-air episodes |
| `Notification.HysteresisExample` | main.py:361-377 | GOOD, BAD, BAD, GOOD, BAD yields exactly two alerts |
| `ControlLoop.Measure` | main.py:311-332 | a tick's readings: temperature and humidity 0.0 after a DHT `OSError`, the clamped density, and the PPM; no reading exactly when the DHT read raises another exception or the gas conversion raises |
| `ControlLoop.LoopStep` | main.py:310-383 | a tick faults exactly when the DHT read raises a non-`OSError` exception or the gas conversion raises, and then keeps both flags; otherwise it classifies its readings and applies `Step` |
| `ControlLoop.DeviceTickFaults` | main.py:316-383 | with the shipped calibration a tick faults exactly when the DHT read raises a non-`OSError` exception or the gas reading is 0 or ADC_MAX |
| `ControlLoop.DustNeverCritical` | main.py:199-221 | no raw particulate reading is classified SMOKE/CRITICAL |
| `ControlLoop.BadAirOnlyFromGas` | main.py:348 | on a completed tick the air is bad exactly when the gas level is BAD |
| `ControlLoop.LoopOutcomes` | main.py:310-383 | one outcome per tick; outcome i is that of the tick run on the flags the first i ticks left; it is `Faulted` exactly when that tick's DHT read raises a non-`OSError` exception or its gas conversion raises |
| `ControlLoop.LoopRunIsPolicyRun` | main.py:310-383 | the flags after any sequence of ticks are those of the email policy run on the completed ticks alone |
| `ControlLoop.LoopOutcomesArePolicyDecisions` | main.py:310-383 | the decisions recorded in the loop's outcomes are, in order, the email policy's decisions on the completed ticks; so the alerts they attempt and deliver are the policy's |
| `ControlLoop.LoopAlertsAtMostOnePerEpisode` | main.py:307-383 | from startup, the alerts delivered by the loop's outcomes never exceed the bad-air episodes of the completed ticks |
| `ControlLoop.AirMonitor.constructor` | main.py:296-308 | the loop starts only with a complete calibration, with both flags false |
| `ControlLoop.AirMonitor.Tick` | main.py:311-383 | the outcome and the new flags are those of `LoopStep` on the old flags |
| `ControlLoop.AirMonitor.RunTicks` | main.py:310-383 | after running the ticks the flags and outcomes are those of `LoopRun` and `LoopOutcomes` |

## Left out

- `connect_wifi` (main.py:97-125): network association and its polling loop. Connectivity is an input to each tick, one per poll (lines 351 and 362).
- `send_email` (main.py:131-172): message formatting, the HTTP POST and `time.time()`. Only its boolean result is modelled, as an input to each tick.
- OLED rendering (`display_readings`, `display_wifi_connecting`, `display_sending_email`, main.py:258-290) and the console prints: user interface only. The model assumes the display calls do not raise. If the OLED set-up at main.py:82-88 failed, `display_wifi_connecting()` at main.py:300 would raise `NameError` outside any `try` and the program would stop before the loop. An I2C error from a display call during a tick would fault that tick at line 338, 352 or 363; at line 363 that is after step A may already have set `initial_email_sent`, a partial tick the model does not represent.
- Hardware I/O in `read_dust_sensor` (main.py:184-196): the LED pin writes, the `utime.sleep_us` busy-waits and the ADC read. The raw ADC value is an input.
- The DHT11 read (main.py:316-322). Its result is an input: a measurement, an `OSError` (0.0 defaults) or another exception (the tick faults).
- Module-level pin, ADC and I2C set-up (main.py:66-91) and the `time.sleep` pacing (main.py:359, 372, 379, 383).
- The line-335 connectivity poll, which only feeds the display label.
- Floating-point rounding. All arithmetic is exact over `real`, so values such as `Rs` at a reading of 2000 differ from the device's in the last bits. The two zero-`Rs` readings are zero in floating point as well.
- `Sensors.GasPpm`: the numeric value of `math.pow`, and the error MicroPython raises for a result beyond the float range, are not modelled. `pow` is an uninterpreted parameter and only its domain errors are modelled.
