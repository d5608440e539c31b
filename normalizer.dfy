/**
 The per-controller normaliser of the Hydra binding: one raw SDK controller
 sample becomes one controller record with position, rotation quaternion,
 joystick geometry, trigger and named buttons.

 The square root and the two-argument arctangent of the C library are not
 interpreted: they are the fields of a `Numerics` value the caller supplies.
 */
module Normalizer {
  import opened Geometry

  /** A position: three components. */
  type Vec3 = s: seq<real> | |s| == 3 witness [0.0, 0.0, 0.0]

  /** A rotation quaternion: four components. */
  type Quat = s: seq<real> | |s| == 4 witness [0.0, 0.0, 0.0, 0.0]

  /** The fields of one SDK controller sample that the binding reads. */
  datatype RawController = RawController(
    pos: Vec3,
    rotQuat: Quat,
    joystickX: real,
    joystickY: real,
    trigger: real,
    buttons: uint32,
    sequenceNumber: int)

  /** The all-zero sample a zero-initialised C global holds. */
  const ZeroSample: RawController :=
    RawController([0.0, 0.0, 0.0], [0.0, 0.0, 0.0, 0.0], 0.0, 0.0, 0.0, 0, 0)

  /** The C library's `sqrt` and `atan2`, left uninterpreted. */
  datatype Numerics = Numerics(sqrt: real -> real, atan2: (real, real) -> real)

  /** The binding's value of pi. */
  const Pi: real := 3.1415926535

  /** Joystick geometry: cartesian and polar coordinates, compass bearing, quadrant and octant. */
  datatype Joystick = Joystick(
    x: real,
    y: real,
    r: real,
    theta: real,
    bearing: real,
    quadrant: int,
    octant: int)

  /** The named buttons, and the raw bitmask they come from. */
  datatype Buttons = Buttons(
    button1: bool,
    button2: bool,
    button3: bool,
    button4: bool,
    home: bool,
    bumper: bool,
    joystick: bool,
    bitmask: uint32)

  /** One normalised controller. */
  datatype ControllerRecord = ControllerRecord(
    position: Vec3,
    rotation: Quat,
    joystick: Joystick,
    trigger: real,
    buttons: Buttons)

  /**
   The compass bearing before snapping: both axes negated and the angle
   shifted by pi, then scaled from a full turn to [0, 1].
   */
  function RawBearing(x: real, y: real, m: Numerics): real
  {
    (m.atan2(-x, -y) + Pi) / (2.0 * Pi)
  }

  /**
   Joystick geometry from the two stick axes. The bearing is the snapped
   compass bearing, and quadrant and octant classify it with the radius: they
   are 0 exactly when the radius is 0, whatever the bearing, and lie in 1..4
   and 1..8 otherwise; a bearing that snaps at the wrap point is sector 1.
   */
  function NormalizeJoystick(x: real, y: real, m: Numerics): (j: Joystick)
    ensures j.x == x && j.y == y
    ensures j.r == m.sqrt(x * x + y * y) && j.theta == m.atan2(y, x)
    ensures j.bearing == EpsilonCrossing(RawBearing(x, y, m))
    ensures j.bearing == 0.0 || (Epsilon <= j.bearing <= 1.0 - Epsilon && j.bearing == RawBearing(x, y, m))
    ensures j.quadrant == ToQuadrant(j.bearing, j.r) && j.octant == ToOctant(j.bearing, j.r)
    ensures j.quadrant == 0 <==> j.r == 0.0
    ensures j.octant == 0 <==> j.r == 0.0
    ensures j.r != 0.0 ==> 1 <= j.quadrant <= 4 && 1 <= j.octant <= 8
    ensures j.r != 0.0 && NearWrap(RawBearing(x, y, m)) ==> j.quadrant == 1 && j.octant == 1
  {
    var r := m.sqrt(x * x + y * y);
    var t := m.atan2(y, x);
    var b := EpsilonCrossing(RawBearing(x, y, m));
    Joystick(x, y, r, t, b, ToQuadrant(b, r), ToOctant(b, r))
  }

  /**
   A stick at rest (both axes 0, and a square root that maps 0 to 0) has
   radius 0 and so quadrant 0 and octant 0, whatever the arctangent says.
   */
  lemma JoystickAtRest(m: Numerics)
    requires m.sqrt(0.0) == 0.0
    ensures NormalizeJoystick(0.0, 0.0, m).r == 0.0
    ensures NormalizeJoystick(0.0, 0.0, m).quadrant == 0
    ensures NormalizeJoystick(0.0, 0.0, m).octant == 0
  {
  }

  /**
   With the stick moved, the record's octant is k in 2..8 exactly when its
   bearing lies strictly inside octant k's open interval, and its quadrant is
   1, 2 or 3 exactly on the matching half-open quarter of the bearing.
   */
  lemma JoystickSectors(x: real, y: real, m: Numerics, k: int)
    requires NormalizeJoystick(x, y, m).r != 0.0 && 2 <= k <= 8
    ensures var j := NormalizeJoystick(x, y, m);
      (j.octant == k <==> InsideOctant(j.bearing, k))
      && (j.quadrant == 1 <==> 0.0 <= j.bearing < 0.25)
      && (j.quadrant == 2 <==> 0.25 <= j.bearing < 0.5)
      && (j.quadrant == 3 <==> 0.5 <= j.bearing < 0.75)
  {
  }

  /**
   The named buttons: button1..4 are bits 5, 6, 3, 4, home is bit 0, bumper
   bit 7, joystick click bit 8; the bitmask is kept unchanged.
   */
  function NormalizeButtons(bits: uint32): (b: Buttons)
    ensures b.button1 == BitSet(bits as nat, 5)
    ensures b.button2 == BitSet(bits as nat, 6)
    ensures b.button3 == BitSet(bits as nat, 3)
    ensures b.button4 == BitSet(bits as nat, 4)
    ensures b.home == BitSet(bits as nat, 0)
    ensures b.bumper == BitSet(bits as nat, 7)
    ensures b.joystick == BitSet(bits as nat, 8)
    ensures b.bitmask == bits
  {
    Buttons(
      BitAt(bits, 5), BitAt(bits, 6), BitAt(bits, 3), BitAt(bits, 4),
      BitAt(bits, 0), BitAt(bits, 7), BitAt(bits, 8),
      bits)
  }

  /**
   One controller record: position, rotation and trigger are copied from the
   sample, the joystick and the buttons are derived from its stick axes and
   its bitmask.
   */
  function NormalizeController(c: RawController, m: Numerics): (rec: ControllerRecord)
    ensures rec.position == c.pos && rec.rotation == c.rotQuat && rec.trigger == c.trigger
    ensures rec.joystick == NormalizeJoystick(c.joystickX, c.joystickY, m)
    ensures rec.buttons == NormalizeButtons(c.buttons)
  {
    ControllerRecord(
      c.pos,
      c.rotQuat,
      NormalizeJoystick(c.joystickX, c.joystickY, m),
      c.trigger,
      NormalizeButtons(c.buttons))
  }
}
