/**
 * The two threshold ladders that turn a PPM estimate and a particulate density
 * into quality levels, and the bad-air test the notification logic uses.
 */
module Classifier {
  import opened Config

  datatype GasQuality = Good | Moderate | Bad

  datatype DustQuality = Clean | DustyModerate | SmokeCritical

  /** The order of the levels, from best to worst. */
  function GasSeverity(q: GasQuality): nat {
    match q
    case Good => 0
    case Moderate => 1
    case Bad => 2
  }

  function DustSeverity(q: DustQuality): nat {
    match q
    case Clean => 0
    case DustyModerate => 1
    case SmokeCritical => 2
  }

  /**
   * classify_gas_quality (main.py:245-252).  Each level is characterised by
   * its own band: a tie at 800 or at 1500 belongs to the better level.
   */
  function ClassifyGas(ppm: real): (q: GasQuality)
    ensures q == Good <==> ppm <= 800.0
    ensures q == Moderate <==> 800.0 < ppm <= 1500.0
    ensures q == Bad <==> ppm > 1500.0
  {
    if ppm <= 800.0 then Good
    else if ppm <= 1500.0 then Moderate
    else Bad
  }

  /**
   * classify_dust_quality (main.py:212-221).  A tie at 0.15 or at 0.50
   * belongs to the worse level.
   */
  function ClassifyDust(density: real): (q: DustQuality)
    ensures q == SmokeCritical <==> density >= SmokeThreshold
    ensures q == DustyModerate <==> DustyThreshold <= density < SmokeThreshold
    ensures q == Clean <==> density < DustyThreshold
  {
    if density >= SmokeThreshold then SmokeCritical
    else if density >= DustyThreshold then DustyModerate
    else Clean
  }

  /** A larger PPM never gives a better gas level. */
  lemma ClassifyGasMonotone(p1: real, p2: real)
    requires p1 <= p2
    ensures GasSeverity(ClassifyGas(p1)) <= GasSeverity(ClassifyGas(p2))
  {
  }

  /** A larger density never gives a better dust level. */
  lemma ClassifyDustMonotone(d1: real, d2: real)
    requires d1 <= d2
    ensures DustSeverity(ClassifyDust(d1)) <= DustSeverity(ClassifyDust(d2))
  {
  }

  /** The exact boundary values of both ladders. */
  lemma ClassifierBoundaries()
    ensures ClassifyGas(800.0) == Good && ClassifyGas(800.0001) == Moderate
    ensures ClassifyGas(1500.0) == Moderate && ClassifyGas(1500.0001) == Bad
    ensures ClassifyDust(0.1499) == Clean && ClassifyDust(0.15) == DustyModerate
    ensures ClassifyDust(0.4999) == DustyModerate && ClassifyDust(0.5) == SmokeCritical
  {
  }

  /**
   * The alert condition of the main loop (main.py:348): either axis is at
   * its worst level.
   */
  function IsBadAir(gas: GasQuality, dust: DustQuality): (bad: bool)
    ensures bad <==> GasSeverity(gas) == 2 || DustSeverity(dust) == 2
  {
    gas == Bad || dust == SmokeCritical
  }
}
