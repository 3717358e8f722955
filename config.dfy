/**
 * Process-wide constants of the ESP32 air monitor: the ADC scale, the MQ-135
 * load resistor, the particulate thresholds, and the gas-sensor calibration.
 */
module Config {

  /** Full-scale code of the 12-bit ADC (main.py:53). */
  const AdcMax: int := 4095

  /** ADC reference voltage in volts (main.py:52). */
  const VoltageResolution: real := 3.3

  /** MQ-135 load resistor in kOhm (main.py:44). */
  const RLoad: real := 10.0

  /** Particulate density thresholds in mg/m^3 (main.py:59-60). */
  const DustyThreshold: real := 0.15
  const SmokeThreshold: real := 0.50

  /** One analog-to-digital conversion result. */
  type Raw = x: int | 0 <= x <= AdcMax

  /**
   * The MQ-135 calibration: the clean-air reference resistance R0 (kOhm),
   * whether that value is final, and the power-law coefficients A and B of
   * PPM = A * (Rs/R0)^B.
   */
  datatype Calibration = Calibration(r0: real, complete: bool, a: real, b: real)
  {
    /** The estimator is switched off (main.py:236). */
    predicate Disabled() {
      r0 <= 0.0 || !complete
    }
  }

  /** The values the device ships with (main.py:32, 43, 45-46). */
  const DeviceCalibration: Calibration := Calibration(10.0, true, 110.0, -2.65)

  /** Python's math.pow on its defined domain; its numeric value is not modelled. */
  type PowFn = (real, real) -> real
}
