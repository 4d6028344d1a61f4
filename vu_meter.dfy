/** The editor's analogue VU meter: a needle that follows a dB level with one-pole
    ballistics (300 ms integration at a 60 Hz refresh) and maps it onto a ±45° arc
    spanning -20 dB to +3 dB. In gain-reduction mode the level is a reduction, so the
    needle swings the other way. Painting is not part of this model. */
module VuMeter {
  import opened Numerics

  /** The meter's scale: -20 dB at the left stop, +3 dB at the right stop. */
  const MinDb: real := -20.0
  const MaxDb: real := 3.0

  /** VU ballistics: a 300 ms integration time, refreshed 60 times per second. */
  const IntegrationTimeMs: real := 300.0
  const FrameRate: real := 60.0

  /** The two things the meter can show. */
  datatype Mode = GainReduction | Output

  /** The number of refreshes in one integration time. */
  function FramesPerIntegration(): (r: real)
    ensures r == 18.0
  {
    (IntegrationTimeMs / 1000.0) * FrameRate
  }

  /** The per-refresh smoothing coefficient `exp(-1 / framesPerIntegration)`. */
  function SmoothingCoeff(m: Math): (c: real)
    ensures ExpDecays(m) ==> 0.0 < c < 1.0
  {
    Exp(m, -1.0 / FramesPerIntegration())
  }

  /** The level the scale shows: the negated level in gain-reduction mode (a reduction of
      6 dB arrives as -6 and is shown as 6), the level itself in output mode. */
  function DisplayDb(mode: Mode, db: real): real
  {
    if mode == GainReduction then -db else db
  }

  /** `levelToAngle`: the needle angle in degrees for a level in dB. The displayed level
      is clamped to the scale and placed linearly on the arc from -45° to 45°. */
  function LevelToAngle(mode: Mode, db: real): (angle: real)
    ensures -45.0 <= angle <= 45.0
  {
    var displayDb := Clamp(MinDb, MaxDb, DisplayDb(mode, db));
    var normalized := (displayDb - MinDb) / (MaxDb - MinDb);
    -45.0 + normalized * 90.0
  }

  /** The scale's ends land on the arc's ends, and levels beyond them pin the needle. */
  lemma LevelToAngleSaturates(db: real)
    ensures LevelToAngle(Output, MinDb) == -45.0 && LevelToAngle(Output, MaxDb) == 45.0
    ensures db <= MinDb ==> LevelToAngle(Output, db) == -45.0
    ensures db >= MaxDb ==> LevelToAngle(Output, db) == 45.0
    ensures db >= -MinDb ==> LevelToAngle(GainReduction, db) == -45.0
    ensures db <= -MaxDb ==> LevelToAngle(GainReduction, db) == 45.0
  {
  }

  /** Inside the scale the needle is strictly between the stops and moves 90/23 degrees
      per dB: equal level steps give equal angle steps. */
  lemma LevelToAngleIsLinearOnScale(a: real, b: real)
    requires MinDb < a < MaxDb && MinDb < b < MaxDb
    ensures -45.0 < LevelToAngle(Output, a) < 45.0
    ensures LevelToAngle(Output, b) - LevelToAngle(Output, a) == (b - a) * 90.0 / (MaxDb - MinDb)
  {
  }

  /** Gain-reduction mode is output mode mirrored: the angle for a level equals the
      output-mode angle for its negation. */
  lemma GainReductionMirrorsOutput(db: real)
    ensures LevelToAngle(GainReduction, db) == LevelToAngle(Output, -db)
  {
  }

  /** The needle never moves against the level: up with it in output mode, down with it
      in gain-reduction mode. */
  lemma LevelToAngleIsMonotone(a: real, b: real)
    requires a <= b
    ensures LevelToAngle(Output, a) <= LevelToAngle(Output, b)
    ensures LevelToAngle(GainReduction, a) >= LevelToAngle(GainReduction, b)
  {
    var lo := Clamp(MinDb, MaxDb, a);
    var hi := Clamp(MinDb, MaxDb, b);
    assert lo <= hi;
    var loR := Clamp(MinDb, MaxDb, -b);
    var hiR := Clamp(MinDb, MaxDb, -a);
    assert loR <= hiR;
  }

  /** The level after `n` refreshes toward a fixed target, starting from `level`. */
  function Follow(coeff: real, level: real, target: real, n: nat): real
    decreases n
  {
    if n == 0 then level else Follow(coeff, Smooth(coeff, level, target), target, n - 1)
  }

  function Power(x: real, n: nat): real
  {
    if n == 0 then 1.0 else x * Power(x, n - 1)
  }

  /** The ballistics are exponential: after `n` refreshes the distance to a fixed target
      is the initial distance times `coeff^n`. */
  lemma {:induction false} FollowClosesGapGeometrically(coeff: real, level: real, target: real, n: nat)
    ensures Follow(coeff, level, target, n) - target == Power(coeff, n) * (level - target)
    decreases n
  {
    if n > 0 {
      var next := Smooth(coeff, level, target);
      FollowClosesGapGeometrically(coeff, next, target, n - 1);
      var p, gap := Power(coeff, n - 1), level - target;
      SmoothShrinksGap(coeff, level, target);
      assert p * (coeff * gap) == (coeff * p) * gap;
      calc {
        Follow(coeff, level, target, n) - target;
        p * (next - target);
        { assert next - target == coeff * gap; }
        p * (coeff * gap);
        Power(coeff, n) * gap;
      }
    }
  }

  /** One refresh multiplies the distance to the target by the coefficient. */
  lemma SmoothShrinksGap(coeff: real, level: real, target: real)
    ensures Smooth(coeff, level, target) - target == coeff * (level - target)
  {
  }

  /** With a coefficient in [0, 1] the needle level never overshoots: after any number of
      refreshes it is still between its start and the target. */
  lemma {:induction false} FollowStaysBetween(coeff: real, level: real, target: real, n: nat)
    requires 0.0 <= coeff <= 1.0
    ensures level <= target ==> level <= Follow(coeff, level, target, n) <= target
    ensures target <= level ==> target <= Follow(coeff, level, target, n) <= level
    decreases n
  {
    if n > 0 {
      var next := Smooth(coeff, level, target);
      SmoothBetween(coeff, level, target);
      FollowStaysBetween(coeff, next, target, n - 1);
    }
  }

  /** The meter component's state. */
  class VUMeter {
    var currentLevel: real
    var targetLevel: real
    var needleAngle: real
    var mode: Mode
    var smoothingCoeff: real

    /** The meter's invariant, which the constructor establishes and every method keeps:
        a refresh coefficient strictly inside (0, 1) and the needle on the arc. */
    ghost predicate Valid()
      reads this`smoothingCoeff, this`needleAngle
    {
      0.0 < smoothingCoeff < 1.0 && -45.0 <= needleAngle <= 45.0
    }

    /** The member defaults (levels at -60 dB, needle at 0°, gain-reduction mode) and the
        ballistics coefficient for 300 ms at 60 Hz. */
    constructor (m: Math)
      ensures currentLevel == -60.0 && targetLevel == -60.0 && needleAngle == 0.0
      ensures mode == GainReduction
      ensures smoothingCoeff == SmoothingCoeff(m)
      ensures ExpDecays(m) ==> Valid()
    {
      currentLevel := -60.0;
      targetLevel := -60.0;
      needleAngle := 0.0;
      mode := GainReduction;
      smoothingCoeff := SmoothingCoeff(m);
    }

    /** `setLevel`: records the level the needle will move toward; nothing else changes. */
    method SetLevel(db: real)
      requires Valid()
      modifies this`targetLevel
      ensures Valid()
      ensures targetLevel == db
    {
      targetLevel := db;
    }

    /** `setMode`: switches what the meter shows; nothing else changes. */
    method SetMode(newMode: Mode)
      requires Valid()
      modifies this`mode
      ensures Valid()
      ensures mode == newMode
    {
      mode := newMode;
    }

    /** `getMode`. */
    method GetMode() returns (r: Mode)
      ensures r == mode
    {
      r := mode;
    }

    /** `timerCallback`: one refresh. The displayed level takes one smoothing step toward
        the target, landing between the old level and the target, and the needle is set
        from it. */
    method TimerCallback()
      requires Valid()
      modifies this`currentLevel, this`needleAngle
      ensures Valid()
      ensures currentLevel == Follow(smoothingCoeff, old(currentLevel), targetLevel, 1)
      ensures old(currentLevel) < targetLevel ==> old(currentLevel) < currentLevel < targetLevel
      ensures targetLevel < old(currentLevel) ==> targetLevel < currentLevel < old(currentLevel)
      ensures old(currentLevel) == targetLevel ==> currentLevel == targetLevel
      ensures needleAngle == LevelToAngle(mode, currentLevel)
    {
      currentLevel := smoothingCoeff * currentLevel + (1.0 - smoothingCoeff) * targetLevel;
      needleAngle := LevelToAngle(mode, currentLevel);
      SmoothBetween(smoothingCoeff, old(currentLevel), targetLevel);
    }
  }
}
