/**
 * The two analog sensor pipelines: the GP2Y1010AU0F particulate sensor
 * (raw code -> voltage -> clamped density) and the MQ-135 gas sensor
 * (raw code -> load-divider resistance Rs -> power-law PPM estimate).
 * Arithmetic is exact real arithmetic; floating-point rounding is not modelled.
 */
module Sensors {
  import opened Config

  /** Volts per ADC code (the factor VOLTAGE_RESOLUTION / ADC_MAX). */
  const VoltsPerCode: real := VoltageResolution / (AdcMax as real)

  /** Raw ADC code to voltage (main.py:199 and main.py:225). */
  function Voltage(raw: Raw): (v: real)
    ensures 0.0 <= v <= VoltageResolution
    ensures v == 0.0 <==> raw == 0
    ensures raw == AdcMax ==> v == VoltageResolution
  {
    raw as real * VoltsPerCode
  }

  lemma VoltageMonotone(raw1: Raw, raw2: Raw)
    requires raw1 <= raw2
    ensures Voltage(raw1) <= Voltage(raw2)
  {
  }

  // ---------------------------------------------------------------------
  // Particulate sensor
  // ---------------------------------------------------------------------

  /** The datasheet's linear model: density = 0.172 * Vout - 0.0999 (main.py:203). */
  function LinearDensity(v: real): real {
    0.172 * v - 0.0999
  }

  /** The largest density the conversion can report: the linear model at full scale. */
  const MaxDustDensity: real := LinearDensity(VoltageResolution)

  /**
   * The conversion part of read_dust_sensor (main.py:199-207): the linear
   * model, clamped from below at 0.  The result is the smallest value that is
   * both non-negative and no smaller than the linear model, so it is the
   * linear model exactly when that is non-negative and 0 otherwise.
   */
  function DustDensity(raw: Raw): (d: real)
    ensures d >= 0.0 && d >= LinearDensity(Voltage(raw))
    ensures d == 0.0 || d == LinearDensity(Voltage(raw))
    ensures d <= MaxDustDensity
  {
    var d := LinearDensity(Voltage(raw));
    if d < 0.0 then 0.0 else d
  }

  /** A larger raw reading never gives a smaller density. */
  lemma DustDensityMonotone(raw1: Raw, raw2: Raw)
    requires raw1 <= raw2
    ensures DustDensity(raw1) <= DustDensity(raw2)
  {
    VoltageMonotone(raw1, raw2);
  }

  /**
   * With a 3.3 V full scale the density never exceeds 0.172 * 3.3 - 0.0999,
   * which is below the 0.50 smoke threshold.
   */
  lemma DustDensityBelowSmoke(raw: Raw)
    ensures DustDensity(raw) < SmokeThreshold
  {
  }

  // ---------------------------------------------------------------------
  // Gas sensor: resistance
  // ---------------------------------------------------------------------

  /**
   * calculate_Rs (main.py:223-231): the sensor resistance of the load
   * divider, or 0.0 when the measured voltage is not positive.  A zero
   * reading is guarded and gives exactly 0.0 with no division; for a positive
   * reading the reference voltage cancels and Rs = R_LOAD * (ADC_MAX/raw - 1).
   */
  function SensorResistance(raw: Raw): (rs: real)
    ensures raw == 0 ==> rs == 0.0
    ensures raw >= 1 ==> rs == RLoad * (AdcMax as real / raw as real - 1.0)
  {
    var v := Voltage(raw);
    if v > 0.0 then
      VoltageQuotient(raw);
      RLoad * (VoltageResolution / v - 1.0)
    else 0.0
  }

  /** Full-scale voltage over the voltage of a positive reading is ADC_MAX / raw. */
  lemma VoltageQuotient(raw: Raw)
    requires raw >= 1
    ensures VoltageResolution / Voltage(raw) == AdcMax as real / raw as real
  {
    var v := Voltage(raw);
    var q := AdcMax as real / raw as real;
    assert v * q == VoltageResolution;
  }

  /** Rs is never negative, and it is zero exactly at the two ends of the ADC range. */
  lemma ResistanceNonNegative(raw: Raw)
    ensures SensorResistance(raw) >= 0.0
    ensures SensorResistance(raw) == 0.0 <==> raw == 0 || raw == AdcMax
  {
    if raw >= 1 {
      var q := AdcMax as real / raw as real;
      assert q * raw as real == AdcMax as real;
      if raw < AdcMax {
        assert q > 1.0;
      } else {
        assert q == 1.0;
      }
    }
  }

  /** Over 1..ADC_MAX, Rs strictly decreases as the reading grows. */
  lemma ResistanceStrictlyDecreasing(raw1: Raw, raw2: Raw)
    requires 1 <= raw1 < raw2
    ensures SensorResistance(raw1) > SensorResistance(raw2)
  {
    QuotientStrictlyDecreasing(AdcMax as real, raw1 as real, raw2 as real);
  }

  /** a / x > a / y for a positive numerator and 0 < x < y. */
  lemma QuotientStrictlyDecreasing(a: real, x: real, y: real)
    requires a > 0.0 && 0.0 < x < y
    ensures a / x > a / y
  {
    var p, q := a / x, a / y;
    assert p * x == a;
    assert q * y == a;
    assert q * x < q * y;
    CancelPositiveFactor(p, q, x);
  }

  lemma CancelPositiveFactor(p: real, q: real, x: real)
    requires x > 0.0 && p * x > q * x
    ensures p > q
  {
  }

  // ---------------------------------------------------------------------
  // Gas sensor: PPM
  // ---------------------------------------------------------------------

  /** A value, or the ValueError math.pow raises outside its domain. */
  datatype Outcome = Value(value: real) | MathDomainError

  predicate IsIntegral(y: real) {
    y.Floor as real == y
  }

  /**
   * math.pow(x, y): a domain error for a zero base with a negative exponent and
   * for a negative base with a non-integral exponent; otherwise the value of
   * the uninterpreted `pow`.
   */
  function MathPow(pow: PowFn, x: real, y: real): (r: Outcome)
    ensures x > 0.0 ==> r == Value(pow(x, y))
    ensures x == 0.0 ==> (r.MathDomainError? <==> y < 0.0)
    ensures x < 0.0 ==> (r.MathDomainError? <==> !IsIntegral(y))
    ensures r.Value? ==> r.value == pow(x, y)
  {
    if (x == 0.0 && y < 0.0) || (x < 0.0 && !IsIntegral(y)) then MathDomainError
    else Value(pow(x, y))
  }

  /**
   * get_mq135_ppm (main.py:233-243): 0.0 when the estimator is disabled,
   * otherwise A * pow(Rs / R0, B).  There is no guard on Rs, so a zero Rs
   * with a negative B, or a negative Rs with a non-integral B, is a domain error.
   */
  function GasPpm(cal: Calibration, pow: PowFn, rs: real): (r: Outcome)
    ensures cal.Disabled() ==> r == Value(0.0)
    ensures r.MathDomainError? <==>
              !cal.Disabled() && ((rs == 0.0 && cal.b < 0.0) || (rs < 0.0 && !IsIntegral(cal.b)))
    ensures !cal.Disabled() && r.Value? ==> r.value == cal.a * pow(rs / cal.r0, cal.b)
  {
    if cal.Disabled() then Value(0.0)
    else
      match MathPow(pow, rs / cal.r0, cal.b)
      case Value(p) => Value(cal.a * p)
      case MathDomainError => MathDomainError
  }

  /**
   * With the shipped calibration, converting a reading to PPM fails exactly
   * for the readings 0 and ADC_MAX, where Rs is 0.
   */
  lemma DeviceGasFault(pow: PowFn, raw: Raw)
    ensures GasPpm(DeviceCalibration, pow, SensorResistance(raw)).MathDomainError?
            <==> raw == 0 || raw == AdcMax
  {
    ResistanceNonNegative(raw);
    assert (-2.65).Floor == -3;
  }

  /** Every other reading yields 110 * pow(Rs / 10, -2.65) with Rs > 0. */
  lemma DeviceGasPpm(pow: PowFn, raw: Raw)
    requires 0 < raw < AdcMax
    ensures SensorResistance(raw) > 0.0
    ensures GasPpm(DeviceCalibration, pow, SensorResistance(raw))
            == Value(110.0 * pow(SensorResistance(raw) / 10.0, -2.65))
  {
    ResistanceNonNegative(raw);
  }

  /** If pow is positive on positive bases, every PPM the device reports is positive. */
  lemma DevicePpmPositive(pow: PowFn, raw: Raw)
    requires forall x: real, y: real :: x > 0.0 ==> pow(x, y) > 0.0
    requires GasPpm(DeviceCalibration, pow, SensorResistance(raw)).Value?
    ensures GasPpm(DeviceCalibration, pow, SensorResistance(raw)).value > 0.0
  {
    DeviceGasFault(pow, raw);
    DeviceGasPpm(pow, raw);
    assert SensorResistance(raw) / 10.0 > 0.0;
  }

  /** The gas-sensor reading 2000 gives Rs = 10 * (4095/2000 - 1) = 10.475 kOhm. */
  lemma ResistanceAt2000()
    ensures SensorResistance(2000) == 10.475
  {
  }
}
