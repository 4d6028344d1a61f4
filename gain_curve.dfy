/** The static transfer curve of the opto-compressor (`OptoCompressor::computeGain`): the
    target gain the engine asks the optical cell for, as a function of the detected input
    level in dB and the engine's parameters. It holds no state. */
module GainCurve {
  import opened Numerics

  const CompressRatio: real := 3.0
  const LimitRatio: real := 100.0
  /** Declared for an "all buttons in" mode, but no code reads it. */
  const BritishRatio: real := 20.0
  const KneeWidthDb: real := 6.0

  /** The engine's five parameters, as the setters leave them. */
  datatype Settings = Settings(
    peakReduction: real,  // 0..100
    makeupGain: real,     // linear gain
    limitMode: bool,
    britishMode: bool,
    mix: real)            // 0..1

  /** Only `limitMode` picks the ratio. */
  function Ratio(limitMode: bool): real
  {
    if limitMode then LimitRatio else CompressRatio
  }

  /** The fraction of the excess over the threshold that is taken away: 1 - 1/ratio. */
  function Slope(limitMode: bool): (k: real)
    ensures 0.0 < k < 1.0
  {
    1.0 - 1.0 / Ratio(limitMode)
  }

  /** -0.4 dB per unit of peak reduction: -40 dB at 100. */
  function Threshold(peakReduction: real): real
  {
    0.0 - peakReduction * 0.4
  }

  function KneeStart(peakReduction: real): real
  {
    Threshold(peakReduction) - KneeWidthDb / 2.0
  }

  function KneeEnd(peakReduction: real): real
  {
    Threshold(peakReduction) + KneeWidthDb / 2.0
  }

  /** The reduction the code applies at and above the knee's end. */
  function FullReduction(peakReduction: real, limitMode: bool, levelDb: real): real
  {
    (levelDb - Threshold(peakReduction)) * Slope(limitMode)
  }

  /** The reduction the code applies inside the knee: the full-ratio reduction scaled by
      the square of the position in the knee. */
  function KneeReduction(peakReduction: real, limitMode: bool, levelDb: real): real
  {
    var position := (levelDb - KneeStart(peakReduction)) / KneeWidthDb;
    position * position * (levelDb - Threshold(peakReduction)) * Slope(limitMode)
  }

  /** Gain reduction in dB. It is zero up to the knee's start, NEGATIVE (a boost) in the
      lower half of the knee, and nonnegative from the threshold on. */
  function ReductionDb(peakReduction: real, limitMode: bool, levelDb: real): (r: real)
    ensures levelDb <= KneeStart(peakReduction) ==> r == 0.0
    ensures KneeStart(peakReduction) < levelDb < Threshold(peakReduction) ==> r < 0.0
    ensures levelDb >= Threshold(peakReduction) ==> r >= 0.0
    ensures levelDb > Threshold(peakReduction) ==> r > 0.0
  {
    var t := Threshold(peakReduction);
    var k := Slope(limitMode);
    if levelDb <= KneeStart(peakReduction) then
      0.0
    else if levelDb >= KneeEnd(peakReduction) then
      ScaleSign(k, levelDb - t);
      FullReduction(peakReduction, limitMode, levelDb)
    else
      KneeSign(peakReduction, limitMode, levelDb);
      KneeReduction(peakReduction, limitMode, levelDb)
  }

  /** Inside the knee the reduction has the sign of the level's excess over the threshold. */
  lemma KneeSign(peakReduction: real, limitMode: bool, levelDb: real)
    requires KneeStart(peakReduction) < levelDb
    ensures levelDb < Threshold(peakReduction) ==> KneeReduction(peakReduction, limitMode, levelDb) < 0.0
    ensures levelDb >= Threshold(peakReduction) ==> KneeReduction(peakReduction, limitMode, levelDb) >= 0.0
    ensures levelDb > Threshold(peakReduction) ==> KneeReduction(peakReduction, limitMode, levelDb) > 0.0
  {
    var position := (levelDb - KneeStart(peakReduction)) / KneeWidthDb;
    var excess := levelDb - Threshold(peakReduction);
    var k := Slope(limitMode);
    assert position > 0.0;
    var once := position * excess;
    var twice := position * once;
    ScaleSign(position, excess);
    ScaleSign(position, once);
    ScaleSign(k, twice);
    assert KneeReduction(peakReduction, limitMode, levelDb) == k * twice;
  }

  /** `computeGain`: unity when peak reduction is 0 or less, otherwise the gain for the
      negated reduction. Given a sound dB conversion, the curve passes the signal at unity
      up to the knee, boosts it in the knee's lower half and attenuates above the
      threshold. */
  function ComputeGain(m: Math, s: Settings, levelDb: real): (g: real)
    ensures s.peakReduction <= 0.0 ==> g == 1.0
    ensures DecibelsToGainSound(m) && levelDb <= KneeStart(s.peakReduction) ==> g == 1.0
    ensures DecibelsToGainSound(m) && s.peakReduction > 0.0
            && KneeStart(s.peakReduction) < levelDb < Threshold(s.peakReduction)
            ==> g > 1.0
    ensures DecibelsToGainSound(m) && levelDb >= Threshold(s.peakReduction) ==> g <= 1.0
    ensures DecibelsToGainSound(m) && s.peakReduction > 0.0 && levelDb > Threshold(s.peakReduction) ==> g < 1.0
  {
    if s.peakReduction <= 0.0 then 1.0
    else DecibelsToGain(m, -ReductionDb(s.peakReduction, s.limitMode, levelDb))
  }

  /** The knee meets both neighbouring branches: it gives no reduction at its start and
      the full-ratio reduction, 3 dB times 1 - 1/ratio, at its end. */
  lemma KneeMeetsNeighbours(peakReduction: real, limitMode: bool)
    ensures KneeReduction(peakReduction, limitMode, KneeStart(peakReduction)) == 0.0
    ensures KneeReduction(peakReduction, limitMode, KneeEnd(peakReduction))
         == FullReduction(peakReduction, limitMode, KneeEnd(peakReduction))
         == 3.0 * Slope(limitMode)
  {
    var start, end := KneeStart(peakReduction), KneeEnd(peakReduction);
    assert (start - KneeStart(peakReduction)) / KneeWidthDb == 0.0;
    assert (end - KneeStart(peakReduction)) / KneeWidthDb == 1.0;
    assert end - Threshold(peakReduction) == 3.0;
  }

  /** Limit mode (100:1) reduces at least as much as compress mode (3:1) exactly where the
      level is below the knee or at or above the threshold; in the knee's lower half it
      boosts more. */
  lemma LimitReducesAtLeastCompress(peakReduction: real, levelDb: real)
    ensures ReductionDb(peakReduction, true, levelDb) >= ReductionDb(peakReduction, false, levelDb)
        <==> levelDb <= KneeStart(peakReduction) || levelDb >= Threshold(peakReduction)
  {
    var t := Threshold(peakReduction);
    assert Slope(true) == 0.99 && Slope(false) == 2.0 / 3.0;
    if KneeStart(peakReduction) < levelDb {
      var base := if levelDb >= KneeEnd(peakReduction) then levelDb - t
                  else var p := (levelDb - KneeStart(peakReduction)) / KneeWidthDb; p * p * (levelDb - t);
      assert ReductionDb(peakReduction, true, levelDb) == base * 0.99;
      assert ReductionDb(peakReduction, false, levelDb) == base * (2.0 / 3.0);
      if levelDb < t {
        assert base < 0.0 by {
          var p := (levelDb - KneeStart(peakReduction)) / KneeWidthDb;
          assert p > 0.0;
          ScaleSign(p * p, levelDb - t);
        }
      } else {
        assert base >= 0.0 by {
          if levelDb < KneeEnd(peakReduction) {
            var p := (levelDb - KneeStart(peakReduction)) / KneeWidthDb;
            ScaleSign(p * p, levelDb - t);
          }
        }
      }
    }
  }

  /** The british flag is carried but never consulted: the curve does not depend on it. */
  lemma BritishFlagIgnored(m: Math, s: Settings, british: bool, levelDb: real)
    ensures ComputeGain(m, s.(britishMode := british), levelDb) == ComputeGain(m, s, levelDb)
  {
  }
}
