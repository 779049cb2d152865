/**
 * `Vehicle.Damper`: a two-slope piecewise-linear damper. Compression
 * (positive velocity) uses the bump slopes and rate; extension (zero or
 * negative velocity) uses the rebound slopes and rate, with the sign flipped.
 * The `Force` field is written by the wheel controller.
 */
module Dampers {
  import opened Common

  /** The eight settings, in Ns/m (rates), slope factors and m/s (division velocities). */
  datatype DamperSettings = DamperSettings(
    bumpRate: real, reboundRate: real,
    slowBump: real, fastBump: real, bumpDivisionVelocity: real,
    slowRebound: real, fastRebound: real, reboundDivisionVelocity: real)

  const DefaultSettings: DamperSettings := DamperSettings(3000.0, 3000.0, 1.4, 0.6, 0.06, 1.6, 0.6, 0.05)

  /**
   * The slope curve both branches use: `slow` per unit below `division`,
   * then `fast` per unit beyond it, starting from the value at `division`.
   */
  function TwoSlope(x: real, division: real, slow: real, fast: real): real
  {
    if x < division then x * slow else division * slow + (x - division) * fast
  }

  /** `CalculateBumpForce`: 0 in rebound, otherwise the bump curve times the bump rate. */
  function BumpForce(d: DamperSettings, velocity: real): real
  {
    if velocity < 0.0 then 0.0
    else TwoSlope(velocity, d.bumpDivisionVelocity, d.slowBump, d.fastBump) * d.bumpRate
  }

  /** `CalculateReboundForce`: 0 in bump, otherwise minus the rebound curve of -velocity times the rebound rate. */
  function ReboundForce(d: DamperSettings, velocity: real): real
  {
    if velocity > 0.0 then 0.0
    else -TwoSlope(-velocity, d.reboundDivisionVelocity, d.slowRebound, d.fastRebound) * d.reboundRate
  }

  /** `CalculateDamperForce`: bump for a positive velocity, rebound otherwise. */
  function DamperForce(d: DamperSettings, velocity: real): real
  {
    if velocity > 0.0 then BumpForce(d, velocity) else ReboundForce(d, velocity)
  }

  /** The damper with its rebound settings in place of its bump settings. */
  function Mirror(d: DamperSettings): DamperSettings
  {
    d.(bumpRate := d.reboundRate, slowBump := d.slowRebound, fastBump := d.fastRebound,
       bumpDivisionVelocity := d.reboundDivisionVelocity)
  }

  /** Settings as the editor ranges allow them: nothing negative. */
  predicate NonNegative(d: DamperSettings)
  {
    && d.bumpRate >= 0.0 && d.reboundRate >= 0.0
    && d.slowBump >= 0.0 && d.fastBump >= 0.0 && d.bumpDivisionVelocity >= 0.0
    && d.slowRebound >= 0.0 && d.fastRebound >= 0.0 && d.reboundDivisionVelocity >= 0.0
  }

  /** Each branch's guard gives 0 for the opposite sign. */
  lemma GuardsGiveZero(d: DamperSettings, velocity: real)
    ensures velocity < 0.0 ==> BumpForce(d, velocity) == 0.0
    ensures velocity > 0.0 ==> ReboundForce(d, velocity) == 0.0
  {
  }

  /**
   * The bump force is linear with slope SlowBump * BumpRate up to the
   * division velocity and with slope FastBump * BumpRate beyond it, and the
   * two pieces meet there.
   */
  lemma BumpForcePiecewiseLinear(d: DamperSettings, velocity: real)
    ensures 0.0 <= velocity < d.bumpDivisionVelocity ==>
              BumpForce(d, velocity) == d.slowBump * d.bumpRate * velocity
    ensures 0.0 <= velocity && d.bumpDivisionVelocity <= velocity ==>
              BumpForce(d, velocity) == d.slowBump * d.bumpRate * d.bumpDivisionVelocity
                                        + d.fastBump * d.bumpRate * (velocity - d.bumpDivisionVelocity)
    ensures d.bumpDivisionVelocity >= 0.0 ==>
              BumpForce(d, d.bumpDivisionVelocity) == d.slowBump * d.bumpRate * d.bumpDivisionVelocity
  {
    var x := velocity;
    var b := d.bumpDivisionVelocity;
    if 0.0 <= x < b {
      assert BumpForce(d, x) == (x * d.slowBump) * d.bumpRate;
    }
    if 0.0 <= x && b <= x {
      assert BumpForce(d, x) == (b * d.slowBump + (x - b) * d.fastBump) * d.bumpRate;
    }
  }

  /** The rebound force is the bump force of the mirrored settings at -velocity, negated. */
  lemma ReboundMirrorsBump(d: DamperSettings, velocity: real)
    ensures ReboundForce(d, velocity) == -BumpForce(Mirror(d), -velocity)
  {
  }

  /** With a non-negative rebound division velocity the damper exerts no force at rest. */
  lemma DamperForceAtRest(d: DamperSettings)
    requires d.reboundDivisionVelocity >= 0.0
    ensures DamperForce(d, 0.0) == 0.0
  {
    assert TwoSlope(0.0, d.reboundDivisionVelocity, d.slowRebound, d.fastRebound) == 0.0;
  }

  /** The curve is never negative on non-negative input and settings. */
  lemma TwoSlopeNonNegative(x: real, division: real, slow: real, fast: real)
    requires x >= 0.0 && division >= 0.0 && slow >= 0.0 && fast >= 0.0
    ensures TwoSlope(x, division, slow, fast) >= 0.0
  {
    if x < division {
      MulNonNegative(x, slow);
    } else {
      MulNonNegative(division, slow);
      MulNonNegative(x - division, fast);
    }
  }

  /** The curve does not decrease on non-negative input and settings. */
  lemma TwoSlopeMonotone(x1: real, x2: real, division: real, slow: real, fast: real)
    requires 0.0 <= x1 <= x2 && division >= 0.0 && slow >= 0.0 && fast >= 0.0
    ensures TwoSlope(x1, division, slow, fast) <= TwoSlope(x2, division, slow, fast)
  {
    if x2 < division {
      MulMonotone(x1, x2, slow);
    } else if x1 < division {
      MulMonotone(x1, division, slow);
      MulNonNegative(x2 - division, fast);
    } else {
      MulMonotone(x1 - division, x2 - division, fast);
    }
  }

  /**
   * With non-negative settings the force has the sign of the velocity and
   * does not decrease as the velocity grows.
   */
  lemma DamperForceSignAndMonotone(d: DamperSettings, v1: real, v2: real)
    requires NonNegative(d)
    ensures v1 > 0.0 ==> DamperForce(d, v1) >= 0.0
    ensures v1 < 0.0 ==> DamperForce(d, v1) <= 0.0
    ensures v1 <= v2 ==> DamperForce(d, v1) <= DamperForce(d, v2)
  {
    ForceSign(d, v1);
    ForceSign(d, v2);
    if v1 <= v2 {
      if 0.0 < v1 {
        TwoSlopeMonotone(v1, v2, d.bumpDivisionVelocity, d.slowBump, d.fastBump);
        MulMonotone(TwoSlope(v1, d.bumpDivisionVelocity, d.slowBump, d.fastBump),
                    TwoSlope(v2, d.bumpDivisionVelocity, d.slowBump, d.fastBump), d.bumpRate);
      } else if v2 <= 0.0 {
        TwoSlopeMonotone(-v2, -v1, d.reboundDivisionVelocity, d.slowRebound, d.fastRebound);
        MulMonotone(TwoSlope(-v2, d.reboundDivisionVelocity, d.slowRebound, d.fastRebound),
                    TwoSlope(-v1, d.reboundDivisionVelocity, d.slowRebound, d.fastRebound), d.reboundRate);
      }
    }
  }

  /** Bump forces are never negative and rebound forces never positive. */
  lemma ForceSign(d: DamperSettings, v: real)
    requires NonNegative(d)
    ensures v > 0.0 ==> DamperForce(d, v) >= 0.0
    ensures v <= 0.0 ==> DamperForce(d, v) <= 0.0
  {
    if v > 0.0 {
      TwoSlopeNonNegative(v, d.bumpDivisionVelocity, d.slowBump, d.fastBump);
      MulNonNegative(TwoSlope(v, d.bumpDivisionVelocity, d.slowBump, d.fastBump), d.bumpRate);
    } else {
      TwoSlopeNonNegative(-v, d.reboundDivisionVelocity, d.slowRebound, d.fastRebound);
      MulNonNegative(TwoSlope(-v, d.reboundDivisionVelocity, d.slowRebound, d.fastRebound), d.reboundRate);
    }
  }

  /** The damper object: its settings and the force last computed for it. */
  class Damper {
    var bumpRate: real
    var reboundRate: real
    var slowBump: real
    var fastBump: real
    var bumpDivisionVelocity: real
    var slowRebound: real
    var fastRebound: real
    var reboundDivisionVelocity: real
    var force: real

    function Settings(): DamperSettings
      reads this
    {
      DamperSettings(bumpRate, reboundRate, slowBump, fastBump, bumpDivisionVelocity,
                     slowRebound, fastRebound, reboundDivisionVelocity)
    }

    constructor()
      ensures Settings() == DefaultSettings && force == 0.0
    {
      bumpRate := DefaultSettings.bumpRate;
      reboundRate := DefaultSettings.reboundRate;
      slowBump := DefaultSettings.slowBump;
      fastBump := DefaultSettings.fastBump;
      bumpDivisionVelocity := DefaultSettings.bumpDivisionVelocity;
      slowRebound := DefaultSettings.slowRebound;
      fastRebound := DefaultSettings.fastRebound;
      reboundDivisionVelocity := DefaultSettings.reboundDivisionVelocity;
      force := 0.0;
    }
  }
}
