/** The fly-through camera of Camera.h. Floats are exact reals; the trigonometry,
    normalisation and cross products of UpdateCameraVectors come from a
    `Numerics` value, so what is proved is the integer-free part: how Yaw, Pitch,
    Zoom and Position evolve, and which fields each operation leaves alone. */
module Camera {
  import opened Geometry

  /** ECameraMovement */
  datatype ECameraMovement = Forward | Backward | Left | Right | Up | Down

  // Default camera values
  const YAW: real := -90.0
  const PITCH: real := -23.0
  const SPEED: real := 5.0
  const SENSITIVITY: real := 0.1
  const ZOOM: real := 45.0

  /** The bounds ProcessMouseMovement keeps Pitch in when asked to constrain it. */
  const MAX_PITCH: real := 89.0
  /** The bounds ProcessMouseScroll keeps Zoom in. */
  const MIN_ZOOM: real := 1.0
  const MAX_ZOOM: real := 179.0

  /** Zoom after ProcessMouseScroll(offsetY): the offset is applied only when
      the old zoom is inside [1, 179]; the result is then pushed back into it. */
  function ScrolledZoom(zoom: real, offsetY: real): (r: real)
    ensures MIN_ZOOM <= r <= MAX_ZOOM
    ensures MIN_ZOOM <= zoom <= MAX_ZOOM && MIN_ZOOM <= zoom - offsetY <= MAX_ZOOM ==> r == zoom - offsetY
    ensures MIN_ZOOM <= zoom <= MAX_ZOOM && zoom - offsetY < MIN_ZOOM ==> r == MIN_ZOOM
    ensures MIN_ZOOM <= zoom <= MAX_ZOOM && zoom - offsetY > MAX_ZOOM ==> r == MAX_ZOOM
    ensures zoom < MIN_ZOOM ==> r == MIN_ZOOM
    ensures zoom > MAX_ZOOM ==> r == MAX_ZOOM
  {
    var z := if zoom >= MIN_ZOOM && zoom <= MAX_ZOOM then zoom - offsetY else zoom;
    var z := if z <= MIN_ZOOM then MIN_ZOOM else z;
    if z >= MAX_ZOOM then MAX_ZOOM else z
  }

  /** A mouse offset in degrees: the offset scaled by MouseSensitivity. */
  function Turn(offset: real, mouseSensitivity: real): real {
    offset * mouseSensitivity
  }

  /** Pitch after ProcessMouseMovement turns it by `delta` (the y offset's
      Turn): the sum, clamped to [-89, 89] when
      `constrainPitch` holds. */
  function TurnedPitch(pitch: real, delta: real, constrainPitch: bool): (r: real)
    ensures !constrainPitch ==> r == pitch + delta
    ensures constrainPitch ==> -MAX_PITCH <= r <= MAX_PITCH
    ensures constrainPitch && -MAX_PITCH <= pitch + delta <= MAX_PITCH ==> r == pitch + delta
    ensures constrainPitch && pitch + delta > MAX_PITCH ==> r == MAX_PITCH
    ensures constrainPitch && pitch + delta < -MAX_PITCH ==> r == -MAX_PITCH
  {
    var p := pitch + delta;
    if !constrainPitch then p
    else
      var p := if p > MAX_PITCH then MAX_PITCH else p;
      if p < -MAX_PITCH then -MAX_PITCH else p
  }

  /** The basis vector a movement follows. */
  function Axis(direction: ECameraMovement, front: Vec3, right: Vec3, up: Vec3): Vec3 {
    match direction
    case Forward | Backward => front
    case Left | Right => right
    case Up | Down => up
  }

  /** +1 for the movements that add their axis, -1 for those that subtract it. */
  function Sign(direction: ECameraMovement): real {
    match direction
    case Forward | Right | Up => 1.0
    case Backward | Left | Down => -1.0
  }

  /** The movement that undoes `direction`. */
  function Opposite(direction: ECameraMovement): ECameraMovement {
    match direction
    case Forward => Backward
    case Backward => Forward
    case Left => Right
    case Right => Left
    case Up => Down
    case Down => Up
  }

  /** Position after ProcessKeyboard(direction) with the given velocity
      (MovementSpeed * DeltaTime). */
  function Moved(position: Vec3, front: Vec3, right: Vec3, up: Vec3,
                 direction: ECameraMovement, velocity: real): Vec3
  {
    match direction
    case Forward => Add(position, Scale(front, velocity))
    case Backward => Sub(position, Scale(front, velocity))
    case Left => Sub(position, Scale(right, velocity))
    case Right => Add(position, Scale(right, velocity))
    case Up => Add(position, Scale(up, velocity))
    case Down => Sub(position, Scale(up, velocity))
  }

  /** Every movement is a step of `velocity` along its signed axis. */
  lemma MovedAlongAxis(position: Vec3, front: Vec3, right: Vec3, up: Vec3,
                       direction: ECameraMovement, velocity: real)
    ensures Moved(position, front, right, up, direction, velocity)
         == Add(position, Scale(Axis(direction, front, right, up), Sign(direction) * velocity))
  {
  }

  /** Moving back in the opposite direction with the same velocity returns to
      the starting position. */
  lemma MovedInverse(position: Vec3, front: Vec3, right: Vec3, up: Vec3,
                     direction: ECameraMovement, velocity: real)
    ensures Moved(Moved(position, front, right, up, direction, velocity), front, right, up,
                  Opposite(direction), velocity) == position
  {
    var axis := Axis(direction, front, right, up);
    assert Axis(Opposite(direction), front, right, up) == axis;
    assert Sign(Opposite(direction)) == -Sign(direction);
  }

  /** Two steps in one direction are one step with the summed velocity. */
  lemma MovedCompose(position: Vec3, front: Vec3, right: Vec3, up: Vec3,
                     direction: ECameraMovement, v1: real, v2: real)
    ensures Moved(Moved(position, front, right, up, direction, v1), front, right, up, direction, v2)
         == Moved(position, front, right, up, direction, v1 + v2)
  {
    var axis := Axis(direction, front, right, up);
    var s := Sign(direction);
    assert s * (v1 + v2) == s * v1 + s * v2;
  }

  /** The distance ProcessKeyboard moves: MovementSpeed * DeltaTime. */
  function Velocity(movementSpeed: real, deltaTime: real): real {
    movementSpeed * deltaTime
  }

  /** The Front vector UpdateCameraVectors derives from the Euler angles. */
  function FrontVector(m: Numerics, yaw: real, pitch: real): Vec3 {
    m.normalize(Vec3(m.cos(Radians(yaw)) * m.cos(Radians(pitch)),
                     m.sin(Radians(pitch)),
                     m.sin(Radians(yaw)) * m.cos(Radians(pitch))))
  }

  /** The Right vector UpdateCameraVectors derives from Front and WorldUp. */
  function RightVector(m: Numerics, front: Vec3, worldUp: Vec3): Vec3 {
    m.normalize(m.cross(front, worldUp))
  }

  /** The Up vector UpdateCameraVectors derives from Right and Front. */
  function UpVector(m: Numerics, right: Vec3, front: Vec3): Vec3 {
    m.normalize(m.cross(right, front))
  }

  /** Front, Right and Up as UpdateCameraVectors derives them from Yaw, Pitch
      and WorldUp. */
  predicate IsBasis(m: Numerics, yaw: real, pitch: real, worldUp: Vec3, front: Vec3, right: Vec3, up: Vec3) {
    && front == FrontVector(m, yaw, pitch)
    && right == RightVector(m, front, worldUp)
    && up == UpVector(m, right, front)
  }

  /** GCamera */
  class GCamera {
    var Position: Vec3
    var Front: Vec3
    var Up: Vec3
    var Right: Vec3
    var WorldUp: Vec3
    var Yaw: real
    var Pitch: real
    var MovementSpeed: real
    var MouseSensitivity: real
    var Zoom: real

    /** The invariant every operation keeps: Zoom stays in [1, 179]. */
    predicate ZoomInRange()
      reads this`Zoom
    {
      MIN_ZOOM <= Zoom <= MAX_ZOOM
    }

    /** The vector constructor, with the defaults of its declaration. */
    constructor (m: Numerics, InPosition: Vec3 := Vec3(0.0, 0.0, 0.0), InUp: Vec3 := Vec3(0.0, 1.0, 0.0),
                 InYaw: real := YAW, InPitch: real := PITCH)
      ensures Position == InPosition && WorldUp == InUp && Yaw == InYaw && Pitch == InPitch
      ensures MovementSpeed == SPEED && MouseSensitivity == SENSITIVITY && Zoom == ZOOM
      ensures IsBasis(m, Yaw, Pitch, WorldUp, Front, Right, Up) && ZoomInRange()
    {
      Front := Vec3(0.0, 0.0, -1.0);
      MovementSpeed := SPEED;
      MouseSensitivity := SENSITIVITY;
      Zoom := ZOOM;
      Position := InPosition;
      WorldUp := InUp;
      Yaw := InYaw;
      Pitch := InPitch;
      new;
      UpdateCameraVectors(m);
    }

    /** The scalar constructor: the same camera built from the components of
        the position and of the world's up direction. */
    constructor FromScalars(m: Numerics, PosX: real, PosY: real, PosZ: real,
                            UpX: real, UpY: real, UpZ: real, InYaw: real, InPitch: real)
      ensures Position == Vec3(PosX, PosY, PosZ) && WorldUp == Vec3(UpX, UpY, UpZ)
      ensures Yaw == InYaw && Pitch == InPitch
      ensures MovementSpeed == SPEED && MouseSensitivity == SENSITIVITY && Zoom == ZOOM
      ensures IsBasis(m, Yaw, Pitch, WorldUp, Front, Right, Up) && ZoomInRange()
    {
      Front := Vec3(0.0, 0.0, -1.0);
      MovementSpeed := SPEED;
      MouseSensitivity := SENSITIVITY;
      Zoom := ZOOM;
      Position := Vec3(PosX, PosY, PosZ);
      WorldUp := Vec3(UpX, UpY, UpZ);
      Yaw := InYaw;
      Pitch := InPitch;
      new;
      UpdateCameraVectors(m);
    }

    /** Recomputes Front, Right and Up from Yaw, Pitch and WorldUp. */
    method UpdateCameraVectors(m: Numerics)
      modifies this`Front, this`Right, this`Up
      ensures IsBasis(m, Yaw, Pitch, WorldUp, Front, Right, Up)
    {
      Front := FrontVector(m, Yaw, Pitch);
      Right := RightVector(m, Front, WorldUp);
      Up := UpVector(m, Right, Front);
    }

    /** Moves Position along Front, Right or Up; nothing else changes. */
    method ProcessKeyboard(Direction: ECameraMovement, DeltaTime: real)
      modifies this`Position
      ensures Position == Moved(old(Position), Front, Right, Up, Direction, Velocity(MovementSpeed, DeltaTime))
    {
      var Velocity := Velocity(MovementSpeed, DeltaTime);
      if Direction == ECameraMovement.Forward {
        Position := Add(Position, Scale(Front, Velocity));
      }
      if Direction == ECameraMovement.Backward {
        Position := Sub(Position, Scale(Front, Velocity));
      }
      if Direction == ECameraMovement.Left {
        Position := Sub(Position, Scale(Right, Velocity));
      }
      if Direction == ECameraMovement.Right {
        Position := Add(Position, Scale(Right, Velocity));
      }
      if Direction == ECameraMovement.Up {
        Position := Add(Position, Scale(Up, Velocity));
      }
      if Direction == ECameraMovement.Down {
        Position := Sub(Position, Scale(Up, Velocity));
      }
    }

    /** Turns the camera: Yaw grows by the scaled x offset without bound, Pitch
        by the scaled y offset, clamped to [-89, 89] when asked; then the basis
        is recomputed. Position and Zoom are untouched. */
    method ProcessMouseMovement(m: Numerics, OffsetX: real, OffsetY: real, ConstrainPitch: bool := true)
      modifies this`Yaw, this`Pitch, this`Front, this`Right, this`Up
      ensures Yaw == old(Yaw) + Turn(OffsetX, MouseSensitivity)
      ensures Pitch == TurnedPitch(old(Pitch), Turn(OffsetY, MouseSensitivity), ConstrainPitch)
      ensures IsBasis(m, Yaw, Pitch, WorldUp, Front, Right, Up)
    {
      var TurnX := Turn(OffsetX, MouseSensitivity);
      var TurnY := Turn(OffsetY, MouseSensitivity);
      Yaw := Yaw + TurnX;
      Pitch := Pitch + TurnY;
      if ConstrainPitch {
        if Pitch > MAX_PITCH {
          Pitch := MAX_PITCH;
        }
        if Pitch < -MAX_PITCH {
          Pitch := -MAX_PITCH;
        }
      }
      UpdateCameraVectors(m);
    }

    /** Zooms by the wheel offset, keeping Zoom in [1, 179]. */
    method ProcessMouseScroll(OffsetY: real)
      modifies this`Zoom
      ensures Zoom == ScrolledZoom(old(Zoom), OffsetY)
      ensures ZoomInRange()
    {
      if Zoom >= MIN_ZOOM && Zoom <= MAX_ZOOM {
        Zoom := Zoom - OffsetY;
      }
      if Zoom <= MIN_ZOOM {
        Zoom := MIN_ZOOM;
      }
      if Zoom >= MAX_ZOOM {
        Zoom := MAX_ZOOM;
      }
    }
  }
}
