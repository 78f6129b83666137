/**
 * The camera and the two input state machines that move it: wheel zoom along
 * the line to the origin, accepted only inside a distance band, and a
 * left-button orbit drag around the origin in spherical coordinates.
 *
 * Library mathematics (`normalize`, `distanceTo`, `Math.acos`, `Math.atan2`,
 * `Math.sin`, `Math.cos`, `Spherical.setFromVector3`, `Object3D.lookAt`) is
 * passed in as functions; the lemmas that need more than that state the laws
 * they assume about them.
 */
module SceneInitializer {
  import opened Vectors

  const InitialCameraPosition: Vec3 := Vec3(23.6, 2.98, -22.7)
  const DegToRad: real := Pi / 180.0
  const InitialCameraRotation: Vec3 := Vec3(81.0 * DegToRad, -2.3 * DegToRad, 144.0 * DegToRad)

  const DefaultMinDistance: real := 2.0
  const DefaultMaxDistance: real := 20.0
  const DefaultZoomSpeed: real := 0.5
  const DefaultRotationSpeed: real := 1.0
  /** The smallest polar angle a drag may reach; the largest is `Pi - PhiMargin`. */
  const PhiMargin: real := 0.1

  /** `THREE.Spherical`: distance from the origin, polar angle from +y, azimuth about y. */
  datatype Spherical = Spherical(radius: real, phi: real, theta: real)

  /** A `PerspectiveCamera`'s pose: position, Euler angles in radians, and their order. */
  class Camera {
    var position: Vec3
    var rotation: Vec3
    var rotationOrder: string

    constructor (position: Vec3, rotation: Vec3)
      ensures this.position == position && this.rotation == rotation && rotationOrder == "XYZ"
    {
      this.position := position;
      this.rotation := rotation;
      rotationOrder := "XYZ";
    }
  }

  // --------------------------------------------------------------------- zoom

  /** How far one wheel event moves the camera towards the origin (negative: away). */
  function ZoomDelta(deltaY: real, zoomSpeed: real): (d: real)
    ensures d * 100.0 == deltaY * zoomSpeed
    ensures deltaY == 0.0 ==> d == 0.0
    ensures zoomSpeed > 0.0 ==> (d > 0.0 <==> deltaY > 0.0)
  {
    deltaY * zoomSpeed * 0.01
  }

  /** The position a wheel event proposes: a step of `-ZoomDelta` along the unit vector to the origin. */
  function ZoomCandidate(position: Vec3, deltaY: real, zoomSpeed: real, unit: Vec3 -> Vec3): (c: Vec3)
    ensures Sub(c, position) == Scale(unit(Sub(Zero, position)), -ZoomDelta(deltaY, zoomSpeed))
    ensures deltaY == 0.0 ==> c == position
  {
    Add(position, Scale(unit(Sub(Zero, position)), -ZoomDelta(deltaY, zoomSpeed)))
  }

  /** The inclusive distance band. */
  predicate ZoomAccepted(distance: real, minDistance: real, maxDistance: real)
  {
    minDistance <= distance <= maxDistance
  }

  /** `norm` behaves like Euclidean length. */
  ghost predicate IsEuclideanNorm(norm: Vec3 -> real)
  {
    forall v :: norm(v) >= 0.0 && norm(v) * norm(v) == Dot(v, v)
  }

  /** `unit` behaves like `normalize` on every non-zero vector. */
  ghost predicate IsNormalize(unit: Vec3 -> Vec3, norm: Vec3 -> real)
  {
    forall v :: norm(v) != 0.0 ==> unit(v) == Scale(v, 1.0 / norm(v))
  }

  lemma NonNegativeRootsAgree(a: real, b: real)
    requires a >= 0.0 && b >= 0.0 && a * a == b * b
    ensures a == b
  {
    calc {
      (a - b) * (a + b);
      a * a + a * b - b * a - b * b;
      { assert a * b == b * a; }
      a * a - b * b;
      0.0;
    }
    if a + b == 0.0 {
      assert a == 0.0 && b == 0.0;
    } else {
      assert a + b > 0.0;
      assert a - b == (a - b) * (a + b) / (a + b);
    }
  }

  lemma {:induction false} RootAbove(a: real, c: real)
    requires a >= 0.0 && c >= 0.0 && a * a > c * c
    ensures a > c
  {
  }

  /** A candidate on the ray through the origin is a rescaled copy of the position. */
  lemma CandidateIsRescaled(p: Vec3, inv: real, zd: real, u: Vec3)
    requires u == Scale(Sub(Zero, p), inv)
    ensures Add(p, Scale(u, -zd)) == Scale(p, 1.0 + zd * inv)
  {
    var c := Add(p, Scale(u, -zd));
    var k := 1.0 + zd * inv;
    assert c.x == p.x * k by { RescaledComponent(p.x, u.x, inv, zd); }
    assert c.y == p.y * k by { RescaledComponent(p.y, u.y, inv, zd); }
    assert c.z == p.z * k by { RescaledComponent(p.z, u.z, inv, zd); }
  }

  /** One coordinate of `CandidateIsRescaled`. */
  lemma RescaledComponent(c: real, uc: real, inv: real, zd: real)
    requires uc == (0.0 - c) * inv
    ensures c + uc * -zd == c * (1.0 + zd * inv)
  {
    calc {
      c + uc * -zd;
      c + (0.0 - c) * inv * -zd;
      c + c * (zd * inv);
      c * (1.0 + zd * inv);
    }
  }

  lemma RescaledLength(p: Vec3, k: real)
    ensures Dot(Scale(p, k), Scale(p, k)) == k * k * Dot(p, p)
  {
  }

  lemma ShiftedSquare(n: real, zd: real)
    requires n > 0.0
    ensures (1.0 + zd / n) * (1.0 + zd / n) * (n * n) == (n + zd) * (n + zd)
  {
    var k := 1.0 + zd / n;
    assert k * n == n + zd;
    assert k * k * (n * n) == (k * n) * (k * n);
  }

  /**
   * The camera starts about 32.9 units from the origin, beyond the default
   * band [2, 20]. With a Euclidean `distanceTo` and a true `normalize`, a wheel
   * event moves it exactly `ZoomDelta` along the ray, so no event with
   * |deltaY| < 2400 brings it into the band: it is always rejected.
   */
  lemma InitialCameraRejectsZoom(deltaY: real, unit: Vec3 -> Vec3, norm: Vec3 -> real)
    requires IsEuclideanNorm(norm) && IsNormalize(unit, norm)
    requires -2400.0 < deltaY < 2400.0
    ensures !ZoomAccepted(norm(ZoomCandidate(InitialCameraPosition, deltaY, DefaultZoomSpeed, unit)),
                          DefaultMinDistance, DefaultMaxDistance)
  {
    var p := InitialCameraPosition;
    var q := Sub(Zero, p);
    var n := norm(p);
    assert Dot(p, p) == 1081.1304;
    assert n * n == 1081.1304;
    RootAbove(n, 32.0);
    assert Dot(q, q) == Dot(p, p);
    NonNegativeRootsAgree(norm(q), n);
    var u := unit(q);
    assert u == Scale(q, 1.0 / n);
    var zd := ZoomDelta(deltaY, DefaultZoomSpeed);
    assert -12.0 < zd < 12.0;
    var c := ZoomCandidate(p, deltaY, DefaultZoomSpeed, unit);
    CandidateIsRescaled(p, 1.0 / n, zd, u);
    assert zd * (1.0 / n) == zd / n;
    assert c == Scale(p, 1.0 + zd / n);
    RescaledLength(p, 1.0 + zd / n);
    ShiftedSquare(n, zd);
    assert norm(c) * norm(c) == (n + zd) * (n + zd);
    NonNegativeRootsAgree(norm(c), n + zd);
  }

  // -------------------------------------------------------------------- orbit

  /** `Math.max(0.1, Math.min(Math.PI - 0.1, phi))`. */
  function ClampPhi(phi: real): (r: real)
    ensures PhiMargin <= r <= Pi - PhiMargin
    ensures PhiMargin <= phi <= Pi - PhiMargin ==> r == phi
    ensures phi < PhiMargin ==> r == PhiMargin
    ensures phi > Pi - PhiMargin ==> r == Pi - PhiMargin
  {
    var upper := if Pi - PhiMargin < phi then Pi - PhiMargin else phi;
    if PhiMargin > upper then PhiMargin else upper
  }

  /** Clamping twice is clamping once. */
  lemma ClampPhiIdempotent(phi: real)
    ensures ClampPhi(ClampPhi(phi)) == ClampPhi(phi)
  {
  }

  /** Clamping keeps the order of angles. */
  lemma ClampPhiMonotone(a: real, b: real)
    requires a <= b
    ensures ClampPhi(a) <= ClampPhi(b)
  {
  }

  /** The azimuth step of a drag: `-dx * rotationSpeed * 0.01`. */
  function DragTheta(theta: real, dx: real, rotationSpeed: real): (r: real)
    ensures (r - theta) * 100.0 == -dx * rotationSpeed
    ensures dx == 0.0 ==> r == theta
    ensures rotationSpeed > 0.0 ==> (r < theta <==> dx > 0.0)
  {
    theta + -dx * rotationSpeed * 0.01
  }

  /** Dragging downward never raises the clamped polar angle. */
  lemma DownwardDragLowersPhi(phi: real, dy: real, rotationSpeed: real)
    ensures rotationSpeed >= 0.0 && dy >= 0.0 ==> ClampPhi(phi + -dy * rotationSpeed * 0.01) <= ClampPhi(phi)
  {
    if rotationSpeed >= 0.0 && dy >= 0.0 {
      assert -dy * rotationSpeed * 0.01 <= 0.0;
      ClampPhiMonotone(phi + -dy * rotationSpeed * 0.01, phi);
    }
  }

  /** The polar step of a drag, clamped away from the poles. */
  function DragPhi(phi: real, dy: real, rotationSpeed: real): (r: real)
    ensures PhiMargin <= r <= Pi - PhiMargin
    ensures dy == 0.0 ==> r == ClampPhi(phi)
    ensures rotationSpeed >= 0.0 && dy >= 0.0 ==> r <= ClampPhi(phi)
  {
    DownwardDragLowersPhi(phi, dy, rotationSpeed);
    ClampPhi(phi + -dy * rotationSpeed * 0.01)
  }

  /** Dragging right and back by the same amount restores the azimuth (nothing clamps it). */
  lemma DragThetaRoundTrip(theta: real, dx: real, rotationSpeed: real)
    ensures DragTheta(DragTheta(theta, dx, rotationSpeed), -dx, rotationSpeed) == theta
  {
  }

  /** The camera position for a spherical pose about the origin. */
  function OrbitPosition(s: Spherical, sin: real -> real, cos: real -> real): (r: Vec3)
    ensures s.radius == 0.0 ==> r == Zero
    ensures sin(s.phi) == 0.0 ==> r.x == 0.0 && r.z == 0.0
  {
    var sinPhiRadius := sin(s.phi) * s.radius;
    Vec3(sinPhiRadius * sin(s.theta), cos(s.phi) * s.radius, sinPhiRadius * cos(s.theta))
  }

  /** `sin` and `cos` satisfy the Pythagorean identity. */
  ghost predicate IsUnitCircle(sin: real -> real, cos: real -> real)
  {
    forall t :: sin(t) * sin(t) + cos(t) * cos(t) == 1.0
  }

  lemma SumOfSquaresScaled(a: real, b: real, k: real)
    requires a * a + b * b == 1.0
    ensures (k * a) * (k * a) + (k * b) * (k * b) == k * k
  {
    assert (k * a) * (k * a) + (k * b) * (k * b) == k * k * (a * a + b * b);
  }

  /** A drag keeps the camera on the sphere: its squared distance to the origin is the squared radius. */
  lemma OrbitPositionOnSphere(s: Spherical, sin: real -> real, cos: real -> real)
    requires IsUnitCircle(sin, cos)
    ensures Dot(OrbitPosition(s, sin, cos), OrbitPosition(s, sin, cos)) == s.radius * s.radius
  {
    var h := sin(s.phi) * s.radius;
    SumOfSquaresScaled(sin(s.theta), cos(s.theta), h);
    SumOfSquaresScaled(sin(s.phi), cos(s.phi), s.radius);
  }

  /**
   * `controls` of `initializeScene` with the wheel and orbit handlers as
   * methods. The camera is shared with the rest of the scene.
   */
  class OrbitZoomControls {
    const camera: Camera
    const minDistance: real
    const maxDistance: real
    const zoomSpeed: real
    const orbitEnabled: bool
    const rotationSpeed: real
    var isDragging: bool
    var previousMouseX: real
    var previousMouseY: real
    var spherical: Spherical

    /** The defaults of `initializeScene`; `initial` is `setFromVector3(camera.position)`. */
    constructor (camera: Camera, initial: Spherical)
      ensures this.camera == camera && spherical == initial
      ensures minDistance == DefaultMinDistance && maxDistance == DefaultMaxDistance
      ensures zoomSpeed == DefaultZoomSpeed && rotationSpeed == DefaultRotationSpeed
      ensures orbitEnabled && !isDragging && previousMouseX == 0.0 && previousMouseY == 0.0
    {
      this.camera := camera;
      minDistance := DefaultMinDistance;
      maxDistance := DefaultMaxDistance;
      zoomSpeed := DefaultZoomSpeed;
      orbitEnabled := true;
      rotationSpeed := DefaultRotationSpeed;
      isDragging := false;
      previousMouseX, previousMouseY := 0.0, 0.0;
      spherical := initial;
    }

    /**
     * The wheel handler: move to the candidate and record its distance as the
     * orbit radius when that distance lies in the band; otherwise change nothing.
     */
    method Wheel(deltaY: real, unit: Vec3 -> Vec3, norm: Vec3 -> real) returns (accepted: bool)
      modifies camera`position, this`spherical
      ensures accepted <==> ZoomAccepted(norm(ZoomCandidate(old(camera.position), deltaY, zoomSpeed, unit)), minDistance, maxDistance)
      ensures accepted ==> camera.position == ZoomCandidate(old(camera.position), deltaY, zoomSpeed, unit)
      ensures accepted ==> spherical == old(spherical).(radius := norm(camera.position))
      ensures !accepted ==> camera.position == old(camera.position) && spherical == old(spherical)
    {
      var zoomDelta := deltaY * zoomSpeed * 0.01;
      var zoomDirection := unit(Sub(Zero, camera.position));
      var newPosition := Add(camera.position, Scale(zoomDirection, -zoomDelta));
      var distanceToOrigin := norm(newPosition);
      accepted := minDistance <= distanceToOrigin && distanceToOrigin <= maxDistance;
      if accepted {
        camera.position := newPosition;
        spherical := spherical.(radius := distanceToOrigin);
      }
    }

    /**
     * `mousedown`: for the left button, read the spherical pose off the camera,
     * start dragging and remember the pointer; any other button changes nothing.
     */
    method MouseDown(button: int, clientX: real, clientY: real,
                     norm: Vec3 -> real, unit: Vec3 -> Vec3, acos: real -> real, atan2: (real, real) -> real)
      modifies this`spherical, this`isDragging, this`previousMouseX, this`previousMouseY
      ensures button == 0 ==>
        var direction := unit(Sub(camera.position, Zero));
        && spherical == Spherical(norm(Sub(camera.position, Zero)), acos(direction.y), atan2(direction.x, direction.z))
        && isDragging && previousMouseX == clientX && previousMouseY == clientY
      ensures button != 0 ==>
        && spherical == old(spherical) && isDragging == old(isDragging)
        && previousMouseX == old(previousMouseX) && previousMouseY == old(previousMouseY)
    {
      if button == 0 {
        var radius := norm(Sub(camera.position, Zero));
        var direction := unit(Sub(camera.position, Zero));
        spherical := Spherical(radius, acos(direction.y), atan2(direction.x, direction.z));
        isDragging := true;
        previousMouseX, previousMouseY := clientX, clientY;
      }
    }

    /** `mouseup` and `mouseleave`: stop dragging. */
    method MouseUp()
      modifies this`isDragging
      ensures !isDragging
    {
      isDragging := false;
    }

    /**
     * `mousemove`: while dragging, turn the pointer motion into an azimuth and a
     * clamped polar step, place the camera on the sphere and aim it at the
     * origin; when not dragging, change nothing.
     */
    method MouseMove(clientX: real, clientY: real,
                     sin: real -> real, cos: real -> real, lookAt: Vec3 -> Vec3)
      modifies this`spherical, this`previousMouseX, this`previousMouseY, camera`position, camera`rotation
      ensures !old(isDragging) ==>
        && spherical == old(spherical) && previousMouseX == old(previousMouseX) && previousMouseY == old(previousMouseY)
        && camera.position == old(camera.position) && camera.rotation == old(camera.rotation)
      ensures old(isDragging) ==>
        && previousMouseX == clientX && previousMouseY == clientY
        && spherical.radius == old(spherical.radius)
        && spherical.theta == DragTheta(old(spherical.theta), clientX - old(previousMouseX), rotationSpeed)
        && spherical.phi == DragPhi(old(spherical.phi), clientY - old(previousMouseY), rotationSpeed)
        && camera.position == OrbitPosition(spherical, sin, cos)
        && camera.rotation == lookAt(camera.position)
      ensures old(isDragging) ==> PhiMargin <= spherical.phi <= Pi - PhiMargin
    {
      if !isDragging {
        return;
      }
      var deltaX := clientX - previousMouseX;
      var deltaY := clientY - previousMouseY;
      previousMouseX, previousMouseY := clientX, clientY;
      var rotateHorizontal := -deltaX * rotationSpeed * 0.01;
      var rotateVertical := -deltaY * rotationSpeed * 0.01;
      var theta := spherical.theta + rotateHorizontal;
      var phi := ClampPhi(spherical.phi + rotateVertical);
      assert theta == DragTheta(spherical.theta, deltaX, rotationSpeed);
      assert phi == DragPhi(spherical.phi, deltaY, rotationSpeed);
      var radius := spherical.radius;
      spherical := Spherical(radius, phi, theta);
      var sinPhiRadius := sin(phi) * radius;
      var position := Vec3(sinPhiRadius * sin(theta), cos(phi) * radius, sinPhiRadius * cos(theta));
      assert position == OrbitPosition(spherical, sin, cos);
      camera.position := position;
      camera.rotation := lookAt(position);
    }
  }

  /**
   * The camera and controls `initializeScene` creates: the fixed start pose,
   * rotation order XYZ, and the default controls around it. `sphericalOf` is
   * `Spherical.setFromVector3`.
   */
  method InitializeScene(sphericalOf: Vec3 -> Spherical) returns (camera: Camera, controls: OrbitZoomControls)
    ensures fresh(camera) && fresh(controls) && controls.camera == camera
    ensures camera.position == InitialCameraPosition && camera.rotation == InitialCameraRotation
    ensures camera.rotationOrder == "XYZ"
    ensures controls.spherical == sphericalOf(InitialCameraPosition)
    ensures controls.minDistance == DefaultMinDistance && controls.maxDistance == DefaultMaxDistance
    ensures controls.zoomSpeed == DefaultZoomSpeed && controls.rotationSpeed == DefaultRotationSpeed
    ensures controls.orbitEnabled && !controls.isDragging
  {
    camera := new Camera(InitialCameraPosition, InitialCameraRotation);
    controls := new OrbitZoomControls(camera, sphericalOf(Sub(camera.position, Zero)));
  }
}
