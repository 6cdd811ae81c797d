/** The orbit camera: field of view, aspect ratio, pitch, yaw and distance
    from the origin, with the projection and view matrices cached behind
    one dirty flag each. Floats are reals; glm's trigonometry and matrix
    builders are functions the camera is given and never looks inside. */
module Cameras {
  import opened Types

  /** The glm functions the camera calls. */
  datatype GlmMath = GlmMath(
    radians: real -> real,
    cos: real -> real,
    sin: real -> real,
    /** `glm::perspective(fovy, aspect, near, far)`. */
    perspective: (real, real, real, real) -> Mat4,
    /** `glm::lookAt(eye, center, up)`. */
    lookAt: (Vec3, Vec3, Vec3) -> Mat4)

  const NearPlane: real := 0.1
  const FarPlane: real := 100.0
  const MaxPitch: real := 89.0

  /** `SetPitch`'s clamp of its argument to `[-89, 89]`. */
  function ClampPitch(pitch: real): (r: real)
    ensures -MaxPitch <= r <= MaxPitch
    ensures -MaxPitch <= pitch <= MaxPitch ==> r == pitch
    ensures pitch > MaxPitch ==> r == MaxPitch
    ensures pitch < -MaxPitch ==> r == -MaxPitch
  {
    var p := if pitch > MaxPitch then MaxPitch else pitch;
    if p < -MaxPitch then -MaxPitch else p
  }

  /** Clamping twice is clamping once, and clamping keeps order. */
  lemma ClampPitchIdempotentMonotone(a: real, b: real)
    ensures ClampPitch(ClampPitch(a)) == ClampPitch(a)
    ensures a <= b ==> ClampPitch(a) <= ClampPitch(b)
  {
  }

  /** `GetForward`: the unit direction from pitch and yaw, in degrees. */
  function Forward(m: GlmMath, pitch: real, yaw: real): Vec3
  {
    var p := m.radians(pitch);
    var y := m.radians(yaw);
    Vec3(m.cos(p) * m.cos(y), m.sin(p), m.cos(p) * m.sin(y))
  }

  /** `GetPosition`: `distance` along the forward direction. */
  function Position(m: GlmMath, pitch: real, yaw: real, distance: real): Vec3
  {
    Scale(distance, Forward(m, pitch, yaw))
  }

  /** `cos` and `sin` satisfy the Pythagorean identity, as glm's do up to rounding. */
  ghost predicate Pythagorean(m: GlmMath)
  {
    forall t :: m.cos(t) * m.cos(t) + m.sin(t) * m.sin(t) == 1.0
  }

  lemma PythagoreanAt(m: GlmMath, t: real)
    requires Pythagorean(m)
    ensures m.cos(t) * m.cos(t) + m.sin(t) * m.sin(t) == 1.0
  {
  }

  function SquaredLength(v: Vec3): real
  {
    v.x * v.x + v.y * v.y + v.z * v.z
  }

  /** The forward direction has unit length. */
  lemma ForwardIsUnit(m: GlmMath, pitch: real, yaw: real)
    requires Pythagorean(m)
    ensures SquaredLength(Forward(m, pitch, yaw)) == 1.0
  {
    var p, y := m.radians(pitch), m.radians(yaw);
    PythagoreanAt(m, p);
    PythagoreanAt(m, y);
    var cp, sp, cy, sy := m.cos(p), m.sin(p), m.cos(y), m.sin(y);
    calc {
      (cp * cy) * (cp * cy) + sp * sp + (cp * sy) * (cp * sy);
      (cp * cp) * (cy * cy + sy * sy) + sp * sp;
      cp * cp + sp * sp;
    }
  }

  /** The camera sits `|distance|` away from the origin it looks at, whatever
      its pitch and yaw. */
  lemma PositionAtDistance(m: GlmMath, pitch: real, yaw: real, distance: real)
    requires Pythagorean(m)
    ensures SquaredLength(Position(m, pitch, yaw, distance)) == distance * distance
  {
    var f := Forward(m, pitch, yaw);
    ForwardIsUnit(m, pitch, yaw);
    calc {
      SquaredLength(Position(m, pitch, yaw, distance));
      (distance * f.x) * (distance * f.x) + (distance * f.y) * (distance * f.y) + (distance * f.z) * (distance * f.z);
      (distance * distance) * SquaredLength(f);
    }
  }

  /** The projection the camera's fields call for. */
  function ProjectionFor(m: GlmMath, fov: real, aspectRatio: real): Mat4
  {
    m.perspective(m.radians(fov), aspectRatio, NearPlane, FarPlane)
  }

  /** The view the camera's fields call for: from its position towards the
      origin, y up. */
  function ViewFor(m: GlmMath, pitch: real, yaw: real, distance: real): Mat4
  {
    m.lookAt(Position(m, pitch, yaw, distance), Vec3(0.0, 0.0, 0.0), Vec3(0.0, 1.0, 0.0))
  }

  class Camera {
    const math: GlmMath
    var projectionDirty: bool
    var viewDirty: bool
    var projectionMatrix: Mat4
    var viewMatrix: Mat4
    var fov: real
    var aspectRatio: real
    var pitch: real
    var yaw: real
    var distance: real

    /** A clean cache holds what the fields call for. */
    ghost predicate Valid()
      reads this
    {
      && (!projectionDirty ==> projectionMatrix == ProjectionFor(math, fov, aspectRatio))
      && (!viewDirty ==> viewMatrix == ViewFor(math, pitch, yaw, distance))
    }

    /** The four values are stored as given, pitch unclamped; both caches
        are dirty. The aspect ratio is not initialised. */
    constructor (math: GlmMath, fov: real, pitch: real, yaw: real, distance: real)
      ensures this.math == math && Valid()
      ensures projectionDirty && viewDirty
      ensures this.fov == fov && this.pitch == pitch && this.yaw == yaw && this.distance == distance
    {
      this.math := math;
      projectionDirty, viewDirty := true, true;
      this.fov, this.pitch, this.yaw, this.distance := fov, pitch, yaw, distance;
      var garbage: real :| true;
      aspectRatio := garbage;
      var unset: Mat4 :| true;
      projectionMatrix, viewMatrix := unset, unset;
    }

    method SetFov(fov: real)
      requires Valid()
      modifies this`fov, this`projectionDirty
      ensures Valid() && this.fov == fov && projectionDirty && viewDirty == old(viewDirty)
    {
      this.fov := fov;
      projectionDirty := true;
    }

    method SetAspectRatio(aspectRatio: real)
      requires Valid()
      modifies this`aspectRatio, this`projectionDirty
      ensures Valid() && this.aspectRatio == aspectRatio && projectionDirty && viewDirty == old(viewDirty)
    {
      this.aspectRatio := aspectRatio;
      projectionDirty := true;
    }

    /** `SetAspectRatio(width, height)`: the same as `SetAspectRatio(width / height)`. */
    method SetAspectRatioOf(width: real, height: real)
      requires Valid() && height != 0.0
      modifies this`aspectRatio, this`projectionDirty
      ensures Valid() && aspectRatio == width / height && projectionDirty && viewDirty == old(viewDirty)
    {
      SetAspectRatio(width / height);
    }

    method SetPitch(pitch: real)
      requires Valid()
      modifies this`pitch, this`viewDirty
      ensures Valid() && this.pitch == ClampPitch(pitch) && viewDirty && projectionDirty == old(projectionDirty)
    {
      var p := pitch;
      if p > MaxPitch {
        p := MaxPitch;
      }
      if p < -MaxPitch {
        p := -MaxPitch;
      }
      this.pitch := p;
      viewDirty := true;
    }

    method SetYaw(yaw: real)
      requires Valid()
      modifies this`yaw, this`viewDirty
      ensures Valid() && this.yaw == yaw && viewDirty && projectionDirty == old(projectionDirty)
    {
      this.yaw := yaw;
      viewDirty := true;
    }

    method SetDistance(distance: real)
      requires Valid()
      modifies this`distance, this`viewDirty
      ensures Valid() && this.distance == distance && viewDirty && projectionDirty == old(projectionDirty)
    {
      this.distance := distance;
      viewDirty := true;
    }

    /** `GetPosition`: the point the view is taken from, `distance` away
        from the origin. */
    function GetPosition(): (r: Vec3)
      reads this
      ensures Pythagorean(math) ==> SquaredLength(r) == distance * distance
    {
      assert Pythagorean(math) ==> SquaredLength(Position(math, pitch, yaw, distance)) == distance * distance by {
        if Pythagorean(math) {
          PositionAtDistance(math, pitch, yaw, distance);
        }
      }
      Position(math, pitch, yaw, distance)
    }

    /** `GetProjectionMatrix`: recomputed only when dirty, then clean; the
        result is always the projection the fields call for. */
    method GetProjectionMatrix() returns (m: Mat4)
      requires Valid()
      modifies this`projectionMatrix, this`projectionDirty
      ensures Valid() && !projectionDirty
      ensures m == ProjectionFor(math, fov, aspectRatio) && m == projectionMatrix
      ensures !old(projectionDirty) ==> projectionMatrix == old(projectionMatrix)
    {
      if projectionDirty {
        projectionMatrix := math.perspective(math.radians(fov), aspectRatio, NearPlane, FarPlane);
        projectionDirty := false;
      }
      m := projectionMatrix;
    }

    /** `GetViewMatrix`: recomputed only when dirty, then clean; the result
        is always the view the fields call for. */
    method GetViewMatrix() returns (m: Mat4)
      requires Valid()
      modifies this`viewMatrix, this`viewDirty
      ensures Valid() && !viewDirty
      ensures m == ViewFor(math, pitch, yaw, distance) && m == viewMatrix
      ensures !old(viewDirty) ==> viewMatrix == old(viewMatrix)
    {
      if viewDirty {
        var position := GetPosition();
        viewMatrix := math.lookAt(position, Vec3(0.0, 0.0, 0.0), Vec3(0.0, 1.0, 0.0));
        viewDirty := false;
      }
      m := viewMatrix;
    }
  }
}
