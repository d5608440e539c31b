/**
 The frame aggregator of the Hydra binding as values: the list of controller
 records of one poll, the shared sequence number, the separation of the two
 controllers, and the elapsed time.
 */
module Aggregator {
  import opened Normalizer

  /** One poll's snapshot, as handed to the host. */
  datatype Frame = Frame(
    sequenceNum: int,
    elapsedTime: real,
    controllers: seq<ControllerRecord>,
    separation: seq<real>)

  /** The records of the active slots, appended in slot order. */
  function NormalizeSlots(raws: seq<RawController>, m: Numerics): (rs: seq<ControllerRecord>)
    ensures |rs| == |raws|
    ensures forall i :: 0 <= i < |raws| ==> rs[i] == NormalizeController(raws[i], m)
    decreases |raws|
  {
    if raws == [] then []
    else NormalizeSlots(raws[..|raws| - 1], m) + [NormalizeController(raws[|raws| - 1], m)]
  }

  /** The shared sequence number after processing the given slots: the last one's, or the previous value if there are none. */
  function LastSequence(raws: seq<RawController>, previous: int): int
  {
    if raws == [] then previous else raws[|raws| - 1].sequenceNumber
  }

  /** Overwriting the shared sequence number once per slot, first slot first. */
  function Overwrite(raws: seq<RawController>, current: int): int
    decreases |raws|
  {
    if raws == [] then current else Overwrite(raws[1..], raws[0].sequenceNumber)
  }

  /** Last write wins: overwriting slot by slot leaves the last slot's sequence number. */
  lemma {:induction false} OverwriteIsLast(raws: seq<RawController>, current: int)
    ensures Overwrite(raws, current) == LastSequence(raws, current)
    decreases |raws|
  {
    if raws != [] {
      OverwriteIsLast(raws[1..], raws[0].sequenceNumber);
      if |raws| > 1 {
        assert raws[1..][|raws| - 2] == raws[|raws| - 1];
      }
    }
  }

  /** When every active slot reports the same sequence number, the frame carries that number. */
  lemma SharedSequence(raws: seq<RawController>, previous: int, s: int)
    requires raws != []
    requires forall i :: 0 <= i < |raws| ==> raws[i].sequenceNumber == s
    ensures LastSequence(raws, previous) == s
  {
  }

  /** The square of a component. */
  function Square(v: real): real
  {
    v * v
  }

  /**
   The separation: per axis position of controller 0 minus position of
   controller 1, then the square root of the sum of the three squares.
   */
  function Separation(p0: Vec3, p1: Vec3, m: Numerics): (s: seq<real>)
    ensures |s| == 4
    ensures forall i :: 0 <= i < 3 ==> s[i] == p0[i] - p1[i]
    ensures s[3] == m.sqrt(Square(s[0]) + Square(s[1]) + Square(s[2]))
  {
    var dx, dy, dz := p0[0] - p1[0], p0[1] - p1[1], p0[2] - p1[2];
    [dx, dy, dz, m.sqrt(Square(dx) + Square(dy) + Square(dz))]
  }

  /** Swapping the two controllers negates the delta and keeps the distance. */
  lemma SeparationAntisymmetric(p0: Vec3, p1: Vec3, m: Numerics)
    ensures forall i :: 0 <= i < 3 ==> Separation(p0, p1, m)[i] == -Separation(p1, p0, m)[i]
    ensures Separation(p0, p1, m)[3] == Separation(p1, p0, m)[3]
  {
  }

  /** Two coincident controllers are separated by the zero vector and distance 0. */
  lemma SeparationOfCoincident(p: Vec3, m: Numerics)
    requires m.sqrt(0.0) == 0.0
    ensures Separation(p, p, m) == [0.0, 0.0, 0.0, 0.0]
  {
  }

  /** Controllers at (0, 0, 0) and (3, 4, 0) are separated by (-3, -4, 0) at distance 5. */
  lemma SeparationExample(m: Numerics)
    requires m.sqrt(25.0) == 5.0
    ensures Separation([0.0, 0.0, 0.0], [3.0, 4.0, 0.0], m) == [-3.0, -4.0, 0.0, 5.0]
  {
  }
}
