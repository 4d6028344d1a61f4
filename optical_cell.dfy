/** The optical-cell simulator (`OptoCompressor::processOpticalCell`) as a step function on
    the cell's state. The engine's method updates its fields exactly as `Step` says; the
    lemmas here are what that step does and does not guarantee. */
module OpticalCell {
  import opened Numerics

  const BaseAttackMs: real := 10.0
  const FastReleaseMs: real := 60.0
  const MinSlowReleaseMs: real := 1000.0
  const MaxSlowReleaseMs: real := 15000.0

  /** The fields one cell step reads and writes. */
  datatype Cell = Cell(
    state: real,            // optoCellState: the gain the cell currently passes
    fastEnv: real,          // fastReleaseEnv
    slowEnv: real,          // slowReleaseEnv
    releaseTimeMs: real,    // adaptiveReleaseTime
    slowReleaseCoeff: real) // slowReleaseCoeff, recomputed on every release step

  /** The fields one cell step only reads. */
  datatype Timing = Timing(sampleRate: real, attackCoeff: real, fastReleaseCoeff: real)

  /** Coefficients as `prepare` (or the header's zero defaults) leave them, a positive
      sample rate, and an `exp` that behaves like the real one. */
  ghost predicate ValidTiming(m: Math, timing: Timing)
  {
    && ExpDecays(m)
    && timing.sampleRate > 0.0
    && 0.0 <= timing.attackCoeff <= 1.0
    && 0.0 <= timing.fastReleaseCoeff <= 1.0
  }

  /** Every gain-like field of the cell lies in [0, 1]. */
  ghost predicate InUnitRange(c: Cell)
  {
    && 0.0 <= c.state <= 1.0
    && 0.0 <= c.fastEnv <= 1.0
    && 0.0 <= c.slowEnv <= 1.0
  }

  /** The attack coefficient: the base one, or the one for half the base attack time once
      the slow envelope is above 0.5. */
  function AttackSpeed(m: Math, timing: Timing, c: Cell): (a: real)
    ensures ValidTiming(m, timing) ==> 0.0 <= a <= 1.0
  {
    if c.slowEnv > 0.5 then OnePoleCoeff(m, BaseAttackMs * 0.5, timing.sampleRate)
    else timing.attackCoeff
  }

  /** The slow release time in ms: 1000 plus 14000 per unit of compression depth. */
  function AdaptiveReleaseTime(state: real): (ms: real)
    ensures 0.0 <= state <= 1.0 ==> MinSlowReleaseMs <= ms <= MaxSlowReleaseMs
    ensures state < 1.0 ==> ms > MinSlowReleaseMs
  {
    MinSlowReleaseMs + (1.0 - state) * (MaxSlowReleaseMs - MinSlowReleaseMs)
  }

  /** One call of `processOpticalCell(target)`. A target below the state attacks: only
      the state moves. Otherwise both envelopes chase the target and the state is
      overwritten by their 40/60 blend. */
  function Step(m: Math, timing: Timing, c: Cell, target: real): (next: Cell)
    ensures target < c.state ==> next.(state := c.state) == c
  {
    if target < c.state then
      c.(state := Smooth(AttackSpeed(m, timing, c), c.state, target))
    else
      var fast := Smooth(timing.fastReleaseCoeff, c.fastEnv, target);
      var releaseTime := AdaptiveReleaseTime(c.state);
      var slowCoeff := OnePoleCoeff(m, releaseTime, timing.sampleRate);
      var slow := Smooth(slowCoeff, c.slowEnv, target);
      Cell(0.4 * fast + 0.6 * slow, fast, slow, releaseTime, slowCoeff)
  }

  /** Attack moves the state toward the target without reaching it or overshooting, and
      leaves the release path untouched. */
  lemma AttackApproachesTarget(m: Math, timing: Timing, c: Cell, target: real)
    requires ValidTiming(m, timing) && 0.0 < timing.attackCoeff < 1.0
    requires target < c.state
    ensures target < Step(m, timing, c, target).state < c.state
    ensures Step(m, timing, c, target).fastEnv == c.fastEnv
    ensures Step(m, timing, c, target).slowEnv == c.slowEnv
    ensures Step(m, timing, c, target).releaseTimeMs == c.releaseTimeMs
  {
    SmoothBetween(AttackSpeed(m, timing, c), c.state, target);
  }

  /** Release recomputes the slow release time from the compression depth, moves each
      envelope toward the target, and sets the state to the 40/60 blend of the two. */
  lemma ReleaseBlendsEnvelopes(m: Math, timing: Timing, c: Cell, target: real)
    requires ValidTiming(m, timing)
    requires target >= c.state
    ensures Step(m, timing, c, target).releaseTimeMs == 1000.0 + (1.0 - c.state) * 14000.0
    ensures 0.0 <= c.state <= 1.0 ==> 1000.0 <= Step(m, timing, c, target).releaseTimeMs <= 15000.0
    ensures Step(m, timing, c, target).state
         == 0.4 * Step(m, timing, c, target).fastEnv + 0.6 * Step(m, timing, c, target).slowEnv
    ensures c.fastEnv <= target ==> c.fastEnv <= Step(m, timing, c, target).fastEnv <= target
    ensures target <= c.fastEnv ==> target <= Step(m, timing, c, target).fastEnv <= c.fastEnv
    ensures 0.0 <= c.state <= 1.0 && c.slowEnv < target
            ==> c.slowEnv < Step(m, timing, c, target).slowEnv < target
    ensures 0.0 <= c.state <= 1.0 && target < c.slowEnv
            ==> target < Step(m, timing, c, target).slowEnv < c.slowEnv
  {
    var next := Step(m, timing, c, target);
    SmoothBetween(timing.fastReleaseCoeff, c.fastEnv, target);
    if 0.0 <= c.state <= 1.0 {
      assert 0.0 < next.slowReleaseCoeff < 1.0;
      SmoothBetween(next.slowReleaseCoeff, c.slowEnv, target);
    }
  }

  /** With targets in [0, 1] the cell never leaves [0, 1]: a convex step of values in
      [0, 1] stays there, on either branch. */
  lemma StepKeepsUnitRange(m: Math, timing: Timing, c: Cell, target: real)
    requires ValidTiming(m, timing)
    requires InUnitRange(c) && 0.0 <= target <= 1.0
    ensures InUnitRange(Step(m, timing, c, target))
  {
    if target < c.state {
      SmoothBetween(AttackSpeed(m, timing, c), c.state, target);
    } else {
      var next := Step(m, timing, c, target);
      SmoothBetween(timing.fastReleaseCoeff, c.fastEnv, target);
      SmoothBetween(next.slowReleaseCoeff, c.slowEnv, target);
    }
  }

  /** The release branch does not continue from the current state: with both envelopes
      still at unity after an attack to 0.5, a target of 0.6 puts the state past the
      target at once. */
  lemma ReleaseCanJumpPastTarget(m: Math, timing: Timing, releaseTimeMs: real, slowCoeff: real)
    requires ValidTiming(m, timing) && 0.0 < timing.fastReleaseCoeff
    ensures Step(m, timing, Cell(0.5, 1.0, 1.0, releaseTimeMs, slowCoeff), 0.6).state > 0.6
  {
    var c := Cell(0.5, 1.0, 1.0, releaseTimeMs, slowCoeff);
    var next := Step(m, timing, c, 0.6);
    SmoothBetween(timing.fastReleaseCoeff, 1.0, 0.6);
    assert next.fastEnv > 0.6 by {
      if timing.fastReleaseCoeff < 1.0 {
      } else {
        assert next.fastEnv == 1.0;
      }
    }
    SmoothBetween(next.slowReleaseCoeff, 1.0, 0.6);
  }

  /** The state `reset` leaves (cell and envelopes at 0) is full attenuation, not unity:
      even for a unity target the first step passes less than unity gain. */
  lemma ResetMutesFirstSample(m: Math, timing: Timing, slowCoeff: real)
    requires ValidTiming(m, timing)
    ensures Step(m, timing, Cell(0.0, 0.0, 0.0, MinSlowReleaseMs, slowCoeff), 1.0).state < 1.0
  {
    var next := Step(m, timing, Cell(0.0, 0.0, 0.0, MinSlowReleaseMs, slowCoeff), 1.0);
    assert 0.0 < next.slowReleaseCoeff < 1.0;
    SmoothBetween(timing.fastReleaseCoeff, 0.0, 1.0);
    SmoothBetween(next.slowReleaseCoeff, 0.0, 1.0);
  }

  /** A cell at unity with a unity target stays at unity whatever the coefficients: the
      fixed point the bypass relies on. */
  lemma UnityIsFixedPoint(m: Math, timing: Timing, c: Cell)
    requires c.state == 1.0 && c.fastEnv == 1.0 && c.slowEnv == 1.0
    ensures Step(m, timing, c, 1.0).state == 1.0
    ensures Step(m, timing, c, 1.0).fastEnv == 1.0
    ensures Step(m, timing, c, 1.0).slowEnv == 1.0
  {
  }
}
