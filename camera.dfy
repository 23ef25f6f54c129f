/** The first-person camera (`FPSCamera`). Its clamping and reset rules are
    modelled over `real`. The floating-point geometry the camera calls
    (the direction a yaw and pitch give, `glm::normalize`, `glm::cross`,
    `glm::lookAt`,
    `glm::perspective`) is not computed: it is a `Geometry` value the camera
    is built with, so the model states which of these results each field
    holds without knowing their values. */
module Camera {
  import opened Glm

  /** `camera_defaults`. */
  const DefaultPosition: Vec3 := Vec3(0.0, 0.0, -3.0)
  const DefaultFront: Vec3 := Vec3(0.0, 0.0, -1.0)
  const DefaultUp: Vec3 := Vec3(0.0, 1.0, 0.0)
  const DefaultYaw: real := 90.0
  const DefaultPitch: real := 0.0
  const DefaultSpeed: real := 10.0
  const DefaultSensitivity: real := 0.05
  const DefaultZoom: real := 45.0
  const MinZoom: real := 1.0
  const MaxZoom: real := 60.0

  /** The bound `handleMouseMovement` keeps the pitch within. */
  const PitchLimit: real := 89.0

  /** `FPSCamera::Directions`. */
  datatype Direction = Forward | Backwards | Left | Right

  /** The geometry functions of glm the camera uses:
      - `direction(yaw, pitch)`: the vector (cos yaw cos pitch, sin pitch,
        sin yaw cos pitch), the angles in degrees;
      - `normalize`: `glm::normalize`;
      - `cross`: `glm::cross`, rounded as floats are;
      - `lookAt(eye, center, up)`: `glm::lookAt`;
      - `perspective(fov, aspect, near, far)`: `glm::perspective`, the field
        of view in degrees. */
  datatype Geometry = Geometry(direction: (real, real) -> Vec3, normalize: Vec3 -> Vec3,
                               cross: (Vec3, Vec3) -> Vec3,
                               lookAt: (Vec3, Vec3, Vec3) -> Mat4,
                               perspective: (real, real, real, real) -> Mat4)

  /** v forced into [lo, hi]. */
  function Clamp(v: real, lo: real, hi: real): (r: real)
    requires lo <= hi
    ensures lo <= r <= hi
    ensures lo <= v <= hi <==> r == v
    ensures v < lo ==> r == lo
    ensures v > hi ==> r == hi
  {
    if v < lo then lo else if v > hi then hi else v
  }

  /** Clamping twice is clamping once. */
  lemma ClampIdempotent(v: real, lo: real, hi: real)
    requires lo <= hi
    ensures Clamp(Clamp(v, lo, hi), lo, hi) == Clamp(v, lo, hi)
  {
  }

  /** The default zoom and pitch lie inside the ranges the camera keeps
      them in, so resetting cannot break those bounds. */
  lemma DefaultsInRange()
    ensures Clamp(DefaultZoom, MinZoom, MaxZoom) == DefaultZoom
    ensures Clamp(DefaultPitch, -PitchLimit, PitchLimit) == DefaultPitch
  {
  }

  /** Where a move in direction d with displacement `velocity` takes
      `position`: along +front, -front, -right or +right. */
  function Moved(position: Vec3, front: Vec3, right: Vec3, d: Direction, velocity: real): Vec3 {
    match d
    case Forward => Add3(position, Scale3(front, velocity))
    case Backwards => Sub3(position, Scale3(front, velocity))
    case Right => Add3(position, Scale3(right, velocity))
    case Left => Sub3(position, Scale3(right, velocity))
  }

  /** A forward move followed by a backward move of the same size, with the
      same `front`, comes back to the start. */
  lemma ForwardBackwards(position: Vec3, front: Vec3, right: Vec3, velocity: real)
    ensures Moved(Moved(position, front, right, Forward, velocity), front, right, Backwards, velocity) == position
    ensures Moved(Moved(position, front, right, Right, velocity), front, right, Left, velocity) == position
  {
  }

  class FPSCamera {
    var position: Vec3
    var front: Vec3
    var up: Vec3
    var worldUp: Vec3
    var right: Vec3
    var yawAngle: real
    var pitchAngle: real
    var movementSpeed: real
    var mouseSensitivity: real
    var zoom: real
    var fov: real
    var aspectRatio: real
    var freeCamera: bool
    var view: Mat4
    var projection: Mat4
    /** The glm functions `update` and the constructor call. */
    const glm: Geometry

    /** The zoom stays within [minZoom, maxZoom]. */
    ghost predicate Valid()
      reads this
    {
      MinZoom <= zoom <= MaxZoom
    }

    /** What `update` leaves behind: front is the normalised direction of
        the yaw and pitch, right is normalise(front x worldUp), up is
        normalise(front x right), and the view looks from the position
        along front with that up. */
    ghost predicate Oriented()
      reads this
    {
      front == glm.normalize(glm.direction(yawAngle, pitchAngle)) &&
      right == glm.normalize(glm.cross(front, worldUp)) &&
      up == glm.normalize(glm.cross(front, right)) &&
      view == glm.lookAt(position, Add3(position, front), up)
    }

    /** The position and up vector always start at the defaults: the
        `_position` and `_up` arguments are ignored. Yaw and pitch come from
        the arguments, the rest from `camera_defaults`; the camera starts in
        walking mode. `update` then recomputes front, right, up and view. */
    constructor (f: real, ar: real, position_: Vec3, up_: Vec3, y: real, p: real, g: Geometry)
      ensures Valid() && glm == g && Oriented()
      ensures position == DefaultPosition && worldUp == DefaultUp
      ensures yawAngle == y && pitchAngle == p
      ensures movementSpeed == DefaultSpeed && mouseSensitivity == DefaultSensitivity
      ensures zoom == DefaultZoom && fov == f && aspectRatio == ar && !freeCamera
      ensures projection == g.perspective(f, ar, 0.1, 100.0)
    {
      glm := g;
      position := DefaultPosition;
      front := DefaultFront;
      up := DefaultUp;
      worldUp := DefaultUp;
      right := Vec3(0.0, 0.0, 0.0);
      yawAngle := y;
      pitchAngle := p;
      movementSpeed := DefaultSpeed;
      mouseSensitivity := DefaultSensitivity;
      zoom := DefaultZoom;
      view := Mat4(Vec4(0.0, 0.0, 0.0, 0.0), Vec4(0.0, 0.0, 0.0, 0.0), Vec4(0.0, 0.0, 0.0, 0.0), Vec4(0.0, 0.0, 0.0, 0.0));
      fov := f;
      aspectRatio := ar;
      freeCamera := false;
      projection := g.perspective(f, ar, 0.1, 100.0);
      new;
      Update();
    }

    /** `update`: recomputes front, right, up and the view matrix from the
        yaw, the pitch, the position and the world up; no other field
        changes. */
    method Update()
      modifies this`front, this`right, this`up, this`view
      ensures Oriented()
    {
      front := glm.normalize(glm.direction(yawAngle, pitchAngle));
      right := glm.normalize(glm.cross(front, worldUp));
      up := glm.normalize(glm.cross(front, right));
      view := glm.lookAt(position, Add3(position, front), up);
    }

    /** `moveCamera`: the position moves by front or right times
        speed * deltaTime; in walking mode its height is then reset to 0. */
    method MoveCamera(d: Direction, deltaTime: real)
      modifies this
      ensures var moved := Moved(old(position), old(front), old(right), d, movementSpeed * deltaTime);
        position == if freeCamera then moved else Vec3(moved.x, 0.0, moved.z)
      ensures !freeCamera ==> position.y == 0.0
      ensures yawAngle == old(yawAngle) && pitchAngle == old(pitchAngle) && zoom == old(zoom)
      ensures movementSpeed == old(movementSpeed) && freeCamera == old(freeCamera)
      ensures mouseSensitivity == old(mouseSensitivity) && worldUp == old(worldUp)
      ensures fov == old(fov) && aspectRatio == old(aspectRatio) && projection == old(projection)
      ensures Oriented()
    {
      var velocity := movementSpeed * deltaTime;
      ghost var moved := Moved(position, front, right, d, velocity);
      match d {
        case Forward => position := Add3(position, Scale3(front, velocity));
        case Backwards => position := Sub3(position, Scale3(front, velocity));
        case Right => position := Add3(position, Scale3(right, velocity));
        case Left => position := Sub3(position, Scale3(right, velocity));
      }
      assert position == moved;
      if !freeCamera {
        position := position.(y := 0.0);
      }
      ghost var target := position;
      Update();
      assert position == target;
    }

    /** `handleMouseMovement`: yaw and pitch grow by the movement times the
        sensitivity; with `constraintPitch` the pitch is then kept within
        [-89, 89]. The yaw is never clamped. */
    method HandleMouseMovement(movement: Vec2, constraintPitch: bool)
      modifies this
      ensures yawAngle == old(yawAngle) + movement.x * mouseSensitivity
      ensures var raw := old(pitchAngle) + movement.y * mouseSensitivity;
        pitchAngle == if constraintPitch then Clamp(raw, -PitchLimit, PitchLimit) else raw
      ensures constraintPitch ==> -PitchLimit <= pitchAngle <= PitchLimit
      ensures position == old(position) && zoom == old(zoom) && movementSpeed == old(movementSpeed)
      ensures mouseSensitivity == old(mouseSensitivity) && freeCamera == old(freeCamera) && worldUp == old(worldUp)
      ensures fov == old(fov) && aspectRatio == old(aspectRatio) && projection == old(projection)
      ensures Oriented()
    {
      var mov := Vec2(movement.x * mouseSensitivity, movement.y * mouseSensitivity);
      yawAngle := yawAngle + mov.x;
      pitchAngle := pitchAngle + mov.y;
      if constraintPitch {
        if pitchAngle > PitchLimit {
          pitchAngle := PitchLimit;
        } else if pitchAngle < -PitchLimit {
          pitchAngle := -PitchLimit;
        }
      }
      Update();
    }

    /** `handleMouseScroll`: the zoom drops by the offset and is kept within
        [minZoom, maxZoom]. */
    method HandleMouseScroll(yOffset: real)
      modifies this`zoom
      ensures Valid()
      ensures zoom == Clamp(old(zoom) - yOffset, MinZoom, MaxZoom)
    {
      zoom := zoom - yOffset;
      if zoom < MinZoom {
        zoom := MinZoom;
      }
      if zoom > MaxZoom {
        zoom := MaxZoom;
      }
    }

    /** `resetCamera`: position, front, up, yaw, pitch and zoom go back to
        the defaults; speed, mode, field of view, aspect ratio, right and
        view are left as they were. */
    method ResetCamera()
      modifies this`position, this`front, this`up, this`yawAngle, this`pitchAngle, this`zoom
      ensures Valid()
      ensures position == DefaultPosition && front == DefaultFront && up == DefaultUp
      ensures yawAngle == DefaultYaw && pitchAngle == DefaultPitch && zoom == DefaultZoom
    {
      position := DefaultPosition;
      front := DefaultFront;
      up := DefaultUp;
      yawAngle := DefaultYaw;
      pitchAngle := DefaultPitch;
      zoom := DefaultZoom;
    }

    method SetMovementSpeed(s: real)
      modifies this`movementSpeed
      ensures movementSpeed == s
    {
      movementSpeed := s;
    }

    /** Switches between free flight and walking; two toggles restore the mode. */
    method ToggleFreeCamera()
      modifies this`freeCamera
      ensures freeCamera == !old(freeCamera)
    {
      freeCamera := !freeCamera;
    }

    method IncrementMovementSpeed(offset: real)
      modifies this`movementSpeed
      ensures movementSpeed == old(movementSpeed) + offset
    {
      movementSpeed := movementSpeed + offset;
    }

    function GetFOV(): real
      reads this
    {
      fov
    }

    function GetAspectRatio(): real
      reads this
    {
      aspectRatio
    }

    function GetMovementSpeed(): real
      reads this
    {
      movementSpeed
    }

    function GetViewMatrix(): Mat4
      reads this
    {
      view
    }

    function GetProjectionMatrix(): Mat4
      reads this
    {
      projection
    }

    function GetPosition(): Vec3
      reads this
    {
      position
    }
  }
}
