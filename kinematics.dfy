/**
 * The two actuators and the primitives both robots build on: flipX,
 * rotateY, internal_rotateY and turnD. A motor call becomes a command
 * appended to a trace; the robot's pose is the flipper preset, the
 * turntable angle the code has commanded and that trace. The Raspberry Pi
 * copy (Build HAT) and the SPIKE hub copy differ in the flipper angles, in
 * the sign of the turntable moves and in when rotateY lifts the flipper; a
 * `Platform` says which copy a primitive follows.
 */
module Kinematics {

  datatype Platform = Pi | Spike

  /** The named flipper positions (flipperHome ... flipperSpin). */
  datatype Preset = Home | Hold | Flip | ScanEdge | ScanCenter | ScanCorner | Spin

  /** Motor angle of each flipper preset on each platform. */
  function FlipperAngle(p: Platform, q: Preset): int
  {
    match p
    case Pi =>
      (match q
       case Home => 12
       case Hold => 143
       case Flip => 274 - 360
       case ScanEdge => 198 - 360
       case ScanCenter => 243 - 360
       case ScanCorner => 184 - 360
       case Spin => 43)
    case Spike =>
      (match q
       case Home => 12
       case Hold => 143
       case Flip => 274
       case ScanEdge => 198
       case ScanCenter => 243
       case ScanCorner => 184
       case Spin => 43)
  }

  /** The `direction` argument: the source's `regular` (2) and `prime` (1). */
  datatype Direction = Regular | Prime

  /** One actuator or sensor call. */
  datatype Cmd =
    | FlipperTo(preset: Preset)     // flipperMotor.run_to_position(preset angle)
    | TurntableBy(degrees: int)     // rotaterMotor.run_for_degrees(degrees)
    | TurntableTo(angle: int)       // rotaterMotor.run_to_position(angle)
    | Sense(face: nat, tile: nat)   // the colour sensor read for a tile

  datatype Pose = Pose(flipper: Preset, turntable: int, trace: seq<Cmd>)

  function MoveFlipper(s: Pose, q: Preset): Pose
  {
    Pose(q, s.turntable, s.trace + [FlipperTo(q)])
  }

  function TurnBy(s: Pose, degrees: int): Pose
  {
    Pose(s.flipper, s.turntable + degrees, s.trace + [TurntableBy(degrees)])
  }

  function TurnTo(s: Pose, angle: int): Pose
  {
    Pose(s.flipper, angle, s.trace + [TurntableTo(angle)])
  }

  function Sensed(s: Pose, face: nat, tile: nat): Pose
  {
    s.(trace := s.trace + [Sense(face, tile)])
  }

  /** Degrees internal_rotateY turns the turntable by. */
  function InternalDelta(p: Platform, count: int, dir: Direction): int
  {
    match p
    case Pi => if dir == Regular then -90 * count else 90 * count
    case Spike => if dir == Regular then 90 * count else -90 * count
  }

  /** Degrees rotateY turns the turntable by: the Pi copy uses its own signs, SPIKE calls internal_rotateY. */
  function RotateYDelta(p: Platform, count: int, dir: Direction): int
  {
    match p
    case Pi => if dir == Regular then 90 * count else -90 * count
    case Spike => InternalDelta(Spike, count, dir)
  }

  /** The Pi copy's test `get_position()-20 < flipperHold and get_position()+20 > flipperHold`. */
  predicate NearHold(p: Platform, q: Preset)
  {
    FlipperAngle(p, q) - 20 < FlipperAngle(p, Hold) && FlipperAngle(p, q) + 20 > FlipperAngle(p, Hold)
  }

  function AfterInternalRotateY(p: Platform, s: Pose, count: int, dir: Direction): Pose
  {
    TurnBy(s, InternalDelta(p, count, dir))
  }

  function AfterTurnD(p: Platform, s: Pose, count: int, dir: Direction): Pose
  {
    AfterInternalRotateY(p, MoveFlipper(s, Hold), count, dir)
  }

  /** rotateY: the Pi copy moves the flipper to Spin only when it is near Hold; SPIKE always does. */
  function AfterRotateY(p: Platform, s: Pose, count: int, dir: Direction): Pose
  {
    var lifted :=
      match p
      case Pi => if NearHold(Pi, s.flipper) then MoveFlipper(s, Spin) else s
      case Spike => MoveFlipper(s, Spin);
    TurnBy(lifted, RotateYDelta(p, count, dir))
  }

  /** flipX: `count` rounds of Hold then Flip (none when `count` is not positive, as `range(count)`). */
  function AfterFlipX(s: Pose, count: int): Pose
    decreases count
  {
    if count <= 0 then s else MoveFlipper(MoveFlipper(AfterFlipX(s, count - 1), Hold), Flip)
  }

  /** The commands appended between two poses of one run. */
  function Increment(s0: Pose, s1: Pose): seq<Cmd>
    requires s0.trace <= s1.trace
  {
    s1.trace[|s0.trace|..]
  }

  /** Every command that sends the flipper to Flip comes straight after one that sent it to Hold. */
  ghost predicate FlipOnlyFromHold(t: seq<Cmd>)
  {
    forall i :: 0 <= i < |t| && t[i] == FlipperTo(Flip) ==> 0 < i && t[i - 1] == FlipperTo(Hold)
  }

  lemma FlipOnlyFromHoldAppend(a: seq<Cmd>, b: seq<Cmd>)
    requires FlipOnlyFromHold(a) && FlipOnlyFromHold(b)
    requires |b| > 0 ==> b[0] != FlipperTo(Flip)
    ensures FlipOnlyFromHold(a + b)
  {
    forall i | 0 <= i < |a + b| && (a + b)[i] == FlipperTo(Flip)
      ensures 0 < i && (a + b)[i - 1] == FlipperTo(Hold)
    {
      if i >= |a| {
        assert b[i - |a|] == FlipperTo(Flip);
      }
    }
  }

  /** On the Pi the near-Hold test picks out exactly the Hold preset. */
  lemma NearHoldIsHold(q: Preset)
    ensures NearHold(Pi, q) <==> q == Hold
  {
  }

  /**
   * flipX only appends commands, `count` Hold-then-Flip pairs, leaves the
   * turntable alone, ends at Flip when it ran at all, and keeps the rule
   * that the flipper reaches Flip only from Hold.
   */
  lemma {:induction false} FlipXShape(s: Pose, count: int)
    ensures s.trace <= AfterFlipX(s, count).trace
    ensures |Increment(s, AfterFlipX(s, count))| == 2 * (if count < 0 then 0 else count)
    ensures forall i :: 0 <= i < |Increment(s, AfterFlipX(s, count))| ==>
              Increment(s, AfterFlipX(s, count))[i] == FlipperTo(if i % 2 == 0 then Hold else Flip)
    ensures AfterFlipX(s, count).turntable == s.turntable
    ensures AfterFlipX(s, count).flipper == if count <= 0 then s.flipper else Flip
    ensures FlipOnlyFromHold(s.trace) ==> FlipOnlyFromHold(AfterFlipX(s, count).trace)
    decreases count
  {
    if count > 0 {
      var prev := AfterFlipX(s, count - 1);
      FlipXShape(s, count - 1);
      var t := AfterFlipX(s, count);
      assert t.trace == prev.trace + [FlipperTo(Hold), FlipperTo(Flip)];
      var before := Increment(s, prev);
      var inc := Increment(s, t);
      assert inc == before + [FlipperTo(Hold), FlipperTo(Flip)];
      forall i | 0 <= i < |inc|
        ensures inc[i] == FlipperTo(if i % 2 == 0 then Hold else Flip)
      {
        if i < |before| {
          assert inc[i] == before[i];
        } else if i == |before| {
          assert i % 2 == 0;
        } else {
          assert i == |before| + 1 && i % 2 == 1;
        }
      }
      if FlipOnlyFromHold(s.trace) {
        FlipOnlyFromHoldAppend(prev.trace, [FlipperTo(Hold), FlipperTo(Flip)]);
      }
    }
  }

  /** flipX leaves the turntable where it was. */
  lemma {:induction false} FlipXTurntable(s: Pose, count: int)
    ensures AfterFlipX(s, count).turntable == s.turntable
    decreases count
  {
    if count > 0 {
      FlipXTurntable(s, count - 1);
    }
  }

  /**
   * turnD lowers the flipper to Hold and then turns the turntable by
   * internal_rotateY's amount: the only turntable command it issues is made
   * while the flipper grips the cube.
   */
  lemma TurnDShape(p: Platform, s: Pose, count: int, dir: Direction)
    ensures Increment(s, AfterTurnD(p, s, count, dir)) == [FlipperTo(Hold), TurntableBy(InternalDelta(p, count, dir))]
    ensures AfterTurnD(p, s, count, dir).flipper == Hold
    ensures AfterTurnD(p, s, count, dir).turntable == s.turntable + InternalDelta(p, count, dir)
    ensures FlipOnlyFromHold(s.trace) ==> FlipOnlyFromHold(AfterTurnD(p, s, count, dir).trace)
  {
    var t := AfterTurnD(p, s, count, dir);
    assert t.trace == s.trace + [FlipperTo(Hold), TurntableBy(InternalDelta(p, count, dir))];
    if FlipOnlyFromHold(s.trace) {
      FlipOnlyFromHoldAppend(s.trace, [FlipperTo(Hold), TurntableBy(InternalDelta(p, count, dir))]);
    }
  }

  /**
   * rotateY never turns the turntable while the flipper is at Hold (where a
   * turn would twist the bottom layer instead of the whole cube): on SPIKE it
   * always lifts the flipper to Spin first, on the Pi it lifts it exactly when
   * it is at Hold.
   */
  lemma RotateYShape(p: Platform, s: Pose, count: int, dir: Direction)
    ensures var t := AfterRotateY(p, s, count, dir);
      && s.trace <= t.trace
      && t.flipper != Hold
      && t.turntable == s.turntable + RotateYDelta(p, count, dir)
      && Increment(s, t) ==
           (if p == Spike || s.flipper == Hold then [FlipperTo(Spin)] else []) + [TurntableBy(RotateYDelta(p, count, dir))]
      && (FlipOnlyFromHold(s.trace) ==> FlipOnlyFromHold(t.trace))
  {
    NearHoldIsHold(s.flipper);
    var t := AfterRotateY(p, s, count, dir);
    var inc := (if p == Spike || s.flipper == Hold then [FlipperTo(Spin)] else []) + [TurntableBy(RotateYDelta(p, count, dir))];
    assert t.trace == s.trace + inc;
    if FlipOnlyFromHold(s.trace) {
      FlipOnlyFromHoldAppend(s.trace, inc);
    }
  }

  /**
   * The two copies' turntable conventions: on the Pi rotateY turns the
   * opposite way to internal_rotateY, on SPIKE the same way; internal_rotateY
   * turns by 90 degrees per count, its sign set by the direction.
   */
  lemma TurntableConventions(count: int, dir: Direction)
    ensures RotateYDelta(Pi, count, dir) == -InternalDelta(Pi, count, dir)
    ensures RotateYDelta(Spike, count, dir) == InternalDelta(Spike, count, dir)
    ensures InternalDelta(Spike, count, dir) == (if dir == Regular then 90 * count else -90 * count)
    ensures InternalDelta(Pi, count, dir) == -InternalDelta(Spike, count, dir)
  {
  }
}
