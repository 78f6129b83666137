/**
 * The camera panel: a position and a rotation in degrees held as UI state,
 * three conversion buttons that rewrite that state, and the step that pushes
 * it onto the scene camera (degrees to radians, rotation order XYZ).
 */
module CameraControls {
  import opened Vectors
  import SceneInitializer

  /** The panel's pose: a position and Euler angles in degrees. */
  datatype Pose = Pose(position: Vec3, rotation: Vec3)

  const InitialPose: Pose := Pose(Vec3(-4.40, -10.3, -87.5), Vec3(0.0, -180.0, 0.0))
  const ResetPose: Pose := Pose(Vec3(23.6, 22.7, 2.98), Vec3(81.0, -2.3, 144.0))

  const Direct: string := "direct"
  const BlenderToThree: string := "blender-to-three"
  const Reset: string := "reset"

  /** Blender is z-up, three.js is y-up: Blender's z becomes y, Blender's y becomes -z. */
  function BlenderPositionToThree(p: Vec3): (r: Vec3)
    ensures ThreePositionToBlender(r) == p
    ensures r.y == p.z
  {
    Vec3(p.x, p.z, -p.y)
  }

  function BlenderRotationToThree(r: Vec3): (t: Vec3)
    ensures ThreeRotationToBlender(t) == r
  {
    Vec3(r.x - 90.0, -r.z, r.y)
  }

  /** The inverse axis swap, three.js back to Blender. */
  function ThreePositionToBlender(p: Vec3): Vec3
  {
    Vec3(p.x, -p.z, p.y)
  }

  function ThreeRotationToBlender(r: Vec3): Vec3
  {
    Vec3(r.x + 90.0, r.z, -r.y)
  }

  /** `applyConversionSystem` on the panel state; unknown names and `direct` keep it. */
  function Convert(system: string, pose: Pose): (r: Pose)
    ensures system == BlenderToThree ==> ThreePositionToBlender(r.position) == pose.position
    ensures system == BlenderToThree ==> ThreeRotationToBlender(r.rotation) == pose.rotation
    ensures system == Reset ==> r == ResetPose
    ensures system != BlenderToThree && system != Reset ==> r == pose
  {
    if system == BlenderToThree then
      Pose(BlenderPositionToThree(pose.position), BlenderRotationToThree(pose.rotation))
    else if system == Reset then ResetPose
    else pose
  }

  /** The swap is undone by its inverse, in both orders. */
  lemma AxisSwapRoundTrips(p: Vec3, r: Vec3)
    ensures ThreePositionToBlender(BlenderPositionToThree(p)) == p
    ensures BlenderPositionToThree(ThreePositionToBlender(p)) == p
    ensures ThreeRotationToBlender(BlenderRotationToThree(r)) == r
    ensures BlenderRotationToThree(ThreeRotationToBlender(r)) == r
  {
  }

  /**
   * Pressing the conversion four times brings the position back and turns the
   * rotation a full -360 degrees about x, with y and z back in place.
   */
  lemma FourConversions(pose: Pose)
    ensures Convert(BlenderToThree, Convert(BlenderToThree, Convert(BlenderToThree, Convert(BlenderToThree, pose)))).position
      == pose.position
    ensures Convert(BlenderToThree, Convert(BlenderToThree, Convert(BlenderToThree, Convert(BlenderToThree, pose)))).rotation
      == Vec3(pose.rotation.x - 360.0, pose.rotation.y, pose.rotation.z)
  {
  }

  /** Degrees to radians, component by component. */
  function ToRadians(degrees: Vec3): (r: Vec3)
    ensures r == Scale(degrees, SceneInitializer.DegToRad)
    ensures degrees == Vec3(180.0, 180.0, 180.0) ==> r == Vec3(Pi, Pi, Pi)
  {
    Vec3(degrees.x * SceneInitializer.DegToRad, degrees.y * SceneInitializer.DegToRad, degrees.z * SceneInitializer.DegToRad)
  }

  /**
   * The reset pose is half the start pose of the scene: its rotation is the
   * scene camera's initial rotation, and its position is the initial position
   * in Blender axes, so converting it yields the initial position but also
   * turns the rotation away from the initial one.
   */
  lemma ResetPoseAgainstInitialCamera()
    ensures ToRadians(ResetPose.rotation) == SceneInitializer.InitialCameraRotation
    ensures ResetPose.position != SceneInitializer.InitialCameraPosition
    ensures Convert(BlenderToThree, ResetPose).position == SceneInitializer.InitialCameraPosition
    ensures ToRadians(Convert(BlenderToThree, ResetPose).rotation) != SceneInitializer.InitialCameraRotation
  {
    var d := SceneInitializer.DegToRad;
    var turned := ToRadians(Convert(BlenderToThree, ResetPose).rotation);
    assert turned.x == (81.0 - 90.0) * d;
    assert d > 0.0;
    assert turned.x < 0.0 < 81.0 * d;
  }

  /** The panel with its React state. */
  class CameraPanel {
    var pose: Pose

    constructor ()
      ensures pose == InitialPose
    {
      pose := InitialPose;
    }

    /** `updateCamera`: copy the position, convert the angles to radians, order XYZ; no camera, no effect. */
    method UpdateCamera(camera: SceneInitializer.Camera?)
      modifies camera
      ensures camera != null ==>
        && camera.position == pose.position
        && camera.rotation == ToRadians(pose.rotation)
        && camera.rotationOrder == "XYZ"
    {
      if camera == null {
        return;
      }
      camera.position := pose.position;
      var degToRad := Pi / 180.0;
      var rotX := pose.rotation.x * degToRad;
      var rotY := pose.rotation.y * degToRad;
      var rotZ := pose.rotation.z * degToRad;
      camera.rotationOrder := "XYZ";
      camera.rotation := Vec3(rotX, rotY, rotZ);
    }

    /**
     * `applyConversionSystem` followed by the effect that pushes changed state
     * to the camera: the three known buttons leave the camera showing the new
     * pose; an unknown name changes nothing at all.
     */
    method ApplyConversionSystem(system: string, camera: SceneInitializer.Camera?)
      modifies this, camera
      ensures pose == Convert(system, old(pose))
      ensures (system == Direct || system == BlenderToThree || system == Reset) && camera != null ==>
        && camera.position == pose.position
        && camera.rotation == ToRadians(pose.rotation)
        && camera.rotationOrder == "XYZ"
      ensures system != Direct && system != BlenderToThree && system != Reset && camera != null ==>
        && camera.position == old(camera.position)
        && camera.rotation == old(camera.rotation)
        && camera.rotationOrder == old(camera.rotationOrder)
    {
      if system == Direct {
        UpdateCamera(camera);
      } else if system == BlenderToThree {
        pose := Pose(Vec3(pose.position.x, pose.position.z, -pose.position.y),
                     Vec3(pose.rotation.x - 90.0, -pose.rotation.z, pose.rotation.y));
        UpdateCamera(camera);
      } else if system == Reset {
        pose := Pose(Vec3(23.6, 22.7, 2.98), Vec3(81.0, -2.3, 144.0));
        UpdateCamera(camera);
      }
    }
  }
}
