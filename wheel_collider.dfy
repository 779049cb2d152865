/**
 * `Sandbox.Car.WheelCollider`: the older, self-contained wheel. Each fixed
 * step it traces down from the top of the suspension, then (when grounded)
 * pushes the body along the ground normal and works out the two slips and the
 * wheel's spin from the contact velocity; when airborne the spin decays.
 *
 * The scene trace, the body's velocity at the contact point, the contact
 * frame's directions and the impulses applied to the body lie outside the
 * model: the trace result and the contact frame are parameters, and the
 * impulses are returned as values or left out. The `Load` the wheel manager
 * sums comes from the `Stereable` base class, which is not part of this
 * model; `load` stands for it.
 */
module WheelColliders {
  import opened Common
  import opened FrictionInfos

  const DefaultSuspensionStiffness: real := 3000.0
  const DefaultSuspensionDamping: real := 140.0
  const DefaultWheelWidth: real := 6.0
  const DefaultMaxSuspensionLength: real := 8.0
  const DefaultWheelRadius: real := 14.0
  const DefaultMinSuspensionLength: real := 0.0
  /** `MathF.Tau`, as a float. */
  const Tau: real := 2.0 * PI
  /** Each airborne step divides the spin by this. */
  const AirborneDecay: real := 1.1

  /** The contact frame of a grounded step: contact velocity, forward and sideways directions, and the speed. */
  datatype ContactFrame = ContactFrame(velocity: Vec3, forward: Vec3, sideways: Vec3, speed: real)

  /** `CalculateSlip`: the velocity's component along the direction over the speed plus 0.01. */
  function CalculateSlip(velocity: Vec3, direction: Vec3, speed: real): real
    requires speed >= 0.0
  {
    velocity.Dot(direction) / (speed + 0.01)
  }

  /**
   * The slip has the sign of the velocity's component along the direction,
   * and multiplying back by the padded speed recovers that component.
   */
  lemma SlipFollowsComponent(velocity: Vec3, direction: Vec3, speed: real)
    requires speed >= 0.0
    ensures Sign(CalculateSlip(velocity, direction, speed)) == Sign(velocity.Dot(direction))
    ensures CalculateSlip(velocity, direction, speed) * (speed + 0.01) == velocity.Dot(direction)
  {
    var c := velocity.Dot(direction);
    var s := speed + 0.01;
    var r := c / s;
    assert r * s == c;
    if c > 0.0 && r <= 0.0 { MulMonotone(r, 0.0, s); }
    if c < 0.0 && r >= 0.0 { MulMonotone(0.0, r, s); }
  }

  /** The signed size of the friction force: the curve at |slip|, against the slip. */
  function FrictionFactor(friction: FrictionInfo, slip: real): real
  {
    -Evaluate(friction, Abs(slip)) * Sign(slip) as real
  }

  /** `CalculateFrictionForce`: the direction scaled by the friction factor. */
  function FrictionForce(friction: FrictionInfo, slip: real, direction: Vec3): Vec3
  {
    direction.Scale(FrictionFactor(friction, slip))
  }

  /**
   * The friction force always points against the slip, has the size the
   * curve gives for |slip|, and vanishes with the slip.
   */
  lemma FrictionOpposesSlip(friction: FrictionInfo, slip: real)
    ensures FrictionFactor(friction, slip) * slip <= 0.0
    ensures slip != 0.0 ==> Abs(FrictionFactor(friction, slip)) == Evaluate(friction, slip)
    ensures slip == 0.0 ==> FrictionFactor(friction, slip) == 0.0
  {
    EvaluateIsEven(friction, slip);
    var e := Evaluate(friction, Abs(slip));
    if slip > 0.0 {
      MulNonNegative(e, slip);
    } else if slip < 0.0 {
      MulNonNegative(e, -slip);
    }
  }

  /** One airborne step's spin: divided by 1.1. */
  function Decayed(angleVelocity: real): real
  {
    angleVelocity / AirborneDecay
  }

  /** An airborne wheel keeps its direction of spin and slows down, unless it is already still. */
  lemma DecayShrinksSpin(angleVelocity: real)
    ensures Sign(Decayed(angleVelocity)) == Sign(angleVelocity)
    ensures angleVelocity != 0.0 ==> Abs(Decayed(angleVelocity)) < Abs(angleVelocity)
    ensures angleVelocity == 0.0 ==> Decayed(angleVelocity) == 0.0
  {
  }

  class WheelCollider {
    var minSuspensionLength: real
    var maxSuspensionLength: real
    var wheelRadius: real
    var suspensionTotalLength: real
    var suspensionStiffness: real
    var suspensionDamping: real
    var wheelWidth: real
    var forwardFriction: FrictionInfo
    var sideFriction: FrictionInfo
    var forwardStiffness: real
    var sideStiffness: real
    var forwardSlip: real
    var sideSlip: real
    var angleVelocity: real
    var motorTorque: real
    /** `groundHit.Hit` and `groundHit.Distance`. */
    var hit: bool
    var hitDistance: real
    var load: real

    /** `_suspensionTotalLength` is the span the trace covers below the minimum length. */
    predicate TotalLengthCurrent()
      reads this
    {
      suspensionTotalLength == maxSuspensionLength + wheelRadius - minSuspensionLength
    }

    /** The field defaults; the total length is first computed by `OnEnabled`. */
    constructor(forwardFriction: FrictionInfo, sideFriction: FrictionInfo)
      ensures minSuspensionLength == DefaultMinSuspensionLength && maxSuspensionLength == DefaultMaxSuspensionLength
      ensures wheelRadius == DefaultWheelRadius && suspensionTotalLength == 0.0
      ensures suspensionStiffness == DefaultSuspensionStiffness && suspensionDamping == DefaultSuspensionDamping
      ensures wheelWidth == DefaultWheelWidth
      ensures this.forwardFriction == forwardFriction && this.sideFriction == sideFriction
      ensures forwardStiffness == 1.0 && sideStiffness == 1.0
      ensures forwardSlip == 0.0 && sideSlip == 0.0 && angleVelocity == 0.0 && motorTorque == 0.0
      ensures !hit && hitDistance == 0.0 && load == 0.0
    {
      minSuspensionLength := DefaultMinSuspensionLength;
      maxSuspensionLength := DefaultMaxSuspensionLength;
      wheelRadius := DefaultWheelRadius;
      suspensionTotalLength := 0.0;
      suspensionStiffness := DefaultSuspensionStiffness;
      suspensionDamping := DefaultSuspensionDamping;
      wheelWidth := DefaultWheelWidth;
      this.forwardFriction := forwardFriction;
      this.sideFriction := sideFriction;
      forwardStiffness := 1.0;
      sideStiffness := 1.0;
      forwardSlip := 0.0;
      sideSlip := 0.0;
      angleVelocity := 0.0;
      motorTorque := 0.0;
      hit := false;
      hitDistance := 0.0;
      load := 0.0;
    }

    /** `RPM`: six times the magnitude of the spin, so never negative and 0 only for a still wheel. */
    function Rpm(): (r: real)
      reads this
      ensures r >= 0.0
      ensures r == 0.0 <==> angleVelocity == 0.0
      ensures r == 6.0 * Abs(angleVelocity)
    {
      Abs(angleVelocity * 6.0)
    }

    /** `UpdateTotalSuspensionLength`, which `OnEnabled` runs once the rigid body is found. */
    method UpdateTotalSuspensionLength()
      modifies this`suspensionTotalLength
      ensures TotalLengthCurrent()
    {
      suspensionTotalLength := (maxSuspensionLength + wheelRadius) - minSuspensionLength;
    }

    /** The `MinSuspensionLength` setter: store and recompute the total length. */
    method SetMinSuspensionLength(value: real)
      modifies this`minSuspensionLength, this`suspensionTotalLength
      ensures minSuspensionLength == value && TotalLengthCurrent()
    {
      minSuspensionLength := value;
      UpdateTotalSuspensionLength();
    }

    /** The `MaxSuspensionLength` setter: store and recompute the total length. */
    method SetMaxSuspensionLength(value: real)
      modifies this`maxSuspensionLength, this`suspensionTotalLength
      ensures maxSuspensionLength == value && TotalLengthCurrent()
    {
      maxSuspensionLength := value;
      UpdateTotalSuspensionLength();
    }

    /** The `WheelRadius` setter: store and recompute the total length. */
    method SetWheelRadius(value: real)
      modifies this`wheelRadius, this`suspensionTotalLength
      ensures wheelRadius == value && TotalLengthCurrent()
    {
      wheelRadius := value;
      UpdateTotalSuspensionLength();
    }

    /** `UpdateStiffness(forward, side)`; called without arguments both are 1. */
    method UpdateStiffness(forward: real, side: real)
      modifies this`forwardStiffness, this`sideStiffness
      ensures forwardStiffness == forward && sideStiffness == side
    {
      forwardStiffness := forward;
      sideStiffness := side;
    }

    /**
     * `DoTrace`, given the trace's own hit flag and distance: a hit further
     * away than the wheel radius does not count, and the distance is capped
     * at the radius.
     */
    method DoTrace(traceHit: bool, traceDistance: real)
      modifies this`hit, this`hitDistance
      ensures hitDistance == Min(traceDistance, wheelRadius) && hitDistance <= wheelRadius
      ensures hit <==> traceHit && traceDistance <= wheelRadius
    {
      hit := traceHit;
      hitDistance := traceDistance;
      if hitDistance > wheelRadius {
        hit := false;
      }
      hitDistance := if hitDistance <= wheelRadius then hitDistance else wheelRadius;
    }

    /**
     * `UpdateSuspension`: the impulse along the ground normal, before the
     * inch conversion and the step length, from the spring compression and
     * the velocity along the normal; nothing when the wheel is airborne.
     */
    function SuspensionForce(normalVelocity: real): (r: Option<real>)
      reads this
      ensures r.None? <==> !hit
      ensures hit ==> r == Some(-suspensionDamping * normalVelocity
                                - suspensionStiffness * (hitDistance - suspensionTotalLength))
      ensures hit && normalVelocity == 0.0 ==>
                r == Some(-suspensionStiffness * (hitDistance - suspensionTotalLength))
    {
      if !hit then None
      else
        assert normalVelocity == 0.0 ==> -suspensionDamping * normalVelocity == 0.0;
        var dampingForce := -suspensionDamping * normalVelocity;
        var springForce := -suspensionStiffness * (hitDistance - suspensionTotalLength);
        assert dampingForce + springForce
               == -suspensionDamping * normalVelocity - suspensionStiffness * (hitDistance - suspensionTotalLength);
        Some(dampingForce + springForce)
    }

    /**
     * `UpdateWheelForces`, apart from the smoke emitter and the impulse:
     * airborne, the spin decays and nothing else changes; grounded, the
     * slips are the contact velocity's scaled components along the sideways
     * and forward directions, and the spin is the forward component turned
     * into an angular velocity over the radius.
     */
    method UpdateWheelForces(contact: ContactFrame)
      requires contact.speed >= 0.0
      modifies this`angleVelocity, this`forwardSlip, this`sideSlip
      ensures !hit ==> angleVelocity == Decayed(old(angleVelocity))
                       && forwardSlip == old(forwardSlip) && sideSlip == old(sideSlip)
      ensures hit ==> sideSlip == CalculateSlip(contact.velocity, contact.sideways, contact.speed) * sideStiffness
      ensures hit ==> forwardSlip == CalculateSlip(contact.velocity, contact.forward, contact.speed) * forwardStiffness
      ensures hit ==> angleVelocity == Div(contact.velocity.Dot(contact.forward) * Tau, wheelRadius)
    {
      if !hit {
        angleVelocity := angleVelocity / AirborneDecay;
        return;
      }
      sideSlip := CalculateSlip(contact.velocity, contact.sideways, contact.speed) * sideStiffness;
      forwardSlip := CalculateSlip(contact.velocity, contact.forward, contact.speed) * forwardStiffness;
      angleVelocity := Div(contact.velocity.Dot(contact.forward) * Tau, wheelRadius);
    }

    /**
     * `OnFixedUpdate`: nothing without a rigid body; otherwise trace, and
     * unless this is a network proxy, run the suspension and the wheel forces.
     */
    method OnFixedUpdate(hasRigidbody: bool, isProxy: bool, traceHit: bool, traceDistance: real,
                         contact: ContactFrame)
      requires contact.speed >= 0.0
      modifies this`hit, this`hitDistance, this`angleVelocity, this`forwardSlip, this`sideSlip
      ensures !hasRigidbody ==> hit == old(hit) && hitDistance == old(hitDistance)
                                && angleVelocity == old(angleVelocity)
      ensures hasRigidbody ==> hitDistance == Min(traceDistance, wheelRadius) && hitDistance <= wheelRadius
                               && (hit <==> traceHit && traceDistance <= wheelRadius)
      ensures !hasRigidbody || isProxy || !hit ==> forwardSlip == old(forwardSlip) && sideSlip == old(sideSlip)
      ensures hasRigidbody && isProxy ==> angleVelocity == old(angleVelocity)
      ensures hasRigidbody && !isProxy && !hit ==> angleVelocity == Decayed(old(angleVelocity))
      ensures hasRigidbody && !isProxy && hit ==>
                && sideSlip == CalculateSlip(contact.velocity, contact.sideways, contact.speed) * sideStiffness
                && forwardSlip == CalculateSlip(contact.velocity, contact.forward, contact.speed) * forwardStiffness
                && angleVelocity == Div(contact.velocity.Dot(contact.forward) * Tau, wheelRadius)
    {
      if !hasRigidbody {
        return;
      }
      DoTrace(traceHit, traceDistance);
      if isProxy {
        return;
      }
      UpdateWheelForces(contact);
    }
  }
}
