/**
 * What the commands do to the cube. A `Frame` records which face's centre
 * sits in each place around the robot. Sending the flipper from Hold to Flip
 * tips the whole cube a quarter turn (`Tilt`); turning the turntable while
 * the flipper is anywhere but Hold turns the whole cube about the vertical
 * (`Yaw`); turning it while the flipper holds the upper layers turns the
 * bottom layer only, which is a face move of whichever face is at the bottom.
 *
 * Conventions: a tilt sends the back face to the bottom (bottom to front,
 * front to top, top to back); a +90 degree turntable turn sends the left
 * face to the back (back to right, right to front, front to left), which is
 * clockwise seen from above and so clockwise seen from the bottom face for
 * a -90 degree turn.
 */
module Orientation {
  import opened Wrappers
  import opened Cube
  import opened Kinematics
  import Scanning

  datatype Frame = Frame(top: Face, bottom: Face, front: Face, back: Face, left: Face, right: Face)

  /** The frame the solver's notation assumes: U on top, F in front, R on the right. */
  const Upright := Frame(U, D, F, B, L, R)

  function Tilt(f: Frame): Frame
  {
    Frame(f.front, f.back, f.bottom, f.top, f.left, f.right)
  }

  function YawQuarter(f: Frame): Frame
  {
    Frame(f.top, f.bottom, f.right, f.left, f.front, f.back)
  }

  /** `quarters` quarter turns of the turntable in the positive direction (negative: the other way). */
  function Yaw(f: Frame, quarters: int): Frame
  {
    match quarters % 4
    case 0 => f
    case 1 => YawQuarter(f)
    case 2 => YawQuarter(YawQuarter(f))
    case _ => YawQuarter(YawQuarter(YawQuarter(f)))
  }

  function Tilts(f: Frame, n: int): Frame
    decreases n
  {
    if n <= 0 then f else Tilt(Tilts(f, n - 1))
  }

  /** The face whose centre sits where `place` sits in the upright frame. */
  function At(f: Frame, place: Face): Face
  {
    match place
    case U => f.top
    case D => f.bottom
    case F => f.front
    case B => f.back
    case L => f.left
    case R => f.right
  }

  /** A face turned by `quarters` clockwise quarter turns (0..3), seen facing that face. */
  datatype Turn = Turn(face: Face, quarters: int)

  datatype Machine = Machine(flipper: Preset, frame: Frame, turns: seq<Turn>)

  /**
   * One command read physically. Flipping into Flip from anywhere but Hold
   * or Flip, a turntable move that is not a whole number of quarter turns,
   * and absolute turntable positioning have no reading here (None).
   */
  function Step(m: Machine, c: Cmd): Option<Machine>
  {
    match c
    case FlipperTo(q) =>
      if q == Flip && m.flipper == Hold then Some(Machine(q, Tilt(m.frame), m.turns))
      else if q == Flip && m.flipper != Flip then None
      else Some(m.(flipper := q))
    case TurntableBy(d) =>
      if d % 90 != 0 then None
      else if m.flipper == Hold then Some(m.(turns := m.turns + [Turn(m.frame.bottom, (-d / 90) % 4)]))
      else Some(m.(frame := Yaw(m.frame, d / 90)))
    case TurntableTo(_) => None
    case Sense(_, _) => Some(m)
  }

  function Run(m: Machine, cmds: seq<Cmd>): Option<Machine>
    decreases |cmds|
  {
    if cmds == [] then Some(m)
    else match Step(m, cmds[0])
      case None => None
      case Some(m') => Run(m', cmds[1..])
  }

  /** Running two pieces of a trace one after the other is running their concatenation. */
  lemma {:induction false} RunAppend(m: Machine, a: seq<Cmd>, b: seq<Cmd>)
    ensures Run(m, a + b) == (match Run(m, a) case None => None case Some(m') => Run(m', b))
    decreases |a|
  {
    if a == [] {
      assert a + b == b;
    } else {
      assert (a + b)[0] == a[0] && (a + b)[1..] == a[1..] + b;
      match Step(m, a[0])
      case None =>
      case Some(m') => RunAppend(m', a[1..], b);
    }
  }

  /** Reading the commands between three successive poses of one run. */
  lemma RunThrough(m: Machine, s0: Pose, s1: Pose, s2: Pose, m1: Machine)
    requires s0.trace <= s1.trace <= s2.trace
    requires Run(m, Increment(s0, s1)) == Some(m1)
    ensures Run(m, Increment(s0, s2)) == Run(m1, Increment(s1, s2))
  {
    assert Increment(s0, s2) == Increment(s0, s1) + Increment(s1, s2);
    RunAppend(m, Increment(s0, s1), Increment(s1, s2));
  }

  /**
   * A stretch of commands that never turns the turntable with the flipper at
   * Hold turns no layer, whenever it has a physical reading at all.
   */
  lemma {:induction false} NoLayerTurned(m: Machine, cmds: seq<Cmd>)
    requires Scanning.LayerTurns(m.flipper, cmds) == 0 && Run(m, cmds).Some?
    ensures Run(m, cmds).value.turns == m.turns
    decreases |cmds|
  {
    if cmds != [] {
      var next := Step(m, cmds[0]).value;
      assert next.turns == m.turns;
      assert next.flipper == if cmds[0].FlipperTo? then cmds[0].preset else m.flipper;
      NoLayerTurned(next, cmds[1..]);
    }
  }

  /** The clockwise quarter turns a turnD of `count` in direction `dir` gives the bottom face on the Pi. */
  function Quarters(count: int, dir: Direction): int
  {
    if dir == Regular then count % 4 else (-count) % 4
  }

  /** flipX tips the whole cube `count` times and turns no layer. */
  lemma {:induction false} RunFlipX(m: Machine, s: Pose, count: int)
    requires m.flipper == s.flipper
    ensures s.trace <= AfterFlipX(s, count).trace
    ensures Run(m, Increment(s, AfterFlipX(s, count))) ==
            Some(Machine(AfterFlipX(s, count).flipper, Tilts(m.frame, count), m.turns))
    decreases count
  {
    if count <= 0 {
      assert Increment(s, AfterFlipX(s, count)) == [];
    } else {
      var prev := AfterFlipX(s, count - 1);
      var t := AfterFlipX(s, count);
      RunFlipX(m, s, count - 1);
      assert t.trace == prev.trace + [FlipperTo(Hold), FlipperTo(Flip)];
      assert Increment(prev, t) == [FlipperTo(Hold), FlipperTo(Flip)];
      var m1 := Machine(prev.flipper, Tilts(m.frame, count - 1), m.turns);
      RunThrough(m, s, prev, t, m1);
      assert Step(m1, FlipperTo(Hold)) == Some(m1.(flipper := Hold));
      assert Run(m1.(flipper := Hold), [FlipperTo(Flip)]) == Some(Machine(Flip, Tilts(m.frame, count), m.turns));
    }
  }

  /** On the Pi, turnD turns the bottom face by `Quarters(count, dir)` and leaves the frame as it was. */
  lemma RunTurnD(m: Machine, s: Pose, count: int, dir: Direction)
    ensures s.trace <= AfterTurnD(Pi, s, count, dir).trace
    ensures Run(m, Increment(s, AfterTurnD(Pi, s, count, dir))) ==
            Some(Machine(Hold, m.frame, m.turns + [Turn(m.frame.bottom, Quarters(count, dir))]))
  {
    TurnDShape(Pi, s, count, dir);
    var d := InternalDelta(Pi, count, dir);
    TurnDQuarters(count, dir);
    var m1 := Machine(Hold, m.frame, m.turns);
    var turned := Machine(Hold, m.frame, m.turns + [Turn(m.frame.bottom, Quarters(count, dir))]);
    assert Step(m, FlipperTo(Hold)) == Some(m1);
    assert Step(m1, TurntableBy(d)) == Some(turned);
    assert Run(m1, [TurntableBy(d)]) == Some(turned);
  }

  /** The Pi's internal_rotateY turns by whole quarters, `Quarters(count, dir)` of them clockwise seen from below. */
  lemma TurnDQuarters(count: int, dir: Direction)
    ensures InternalDelta(Pi, count, dir) % 90 == 0
    ensures (-InternalDelta(Pi, count, dir) / 90) % 4 == Quarters(count, dir)
  {
    QuarterDegrees(count);
    if dir == Regular {
      assert -InternalDelta(Pi, count, dir) == 90 * count;
    } else {
      assert -InternalDelta(Pi, count, dir) == -90 * count;
    }
  }

  /**
   * On either copy, rotateY turns the whole cube `count` quarter turns (the
   * other way for prime) and no layer.
   */
  lemma RunRotateY(p: Platform, m: Machine, s: Pose, count: int, dir: Direction)
    requires m.flipper == s.flipper
    ensures s.trace <= AfterRotateY(p, s, count, dir).trace
    ensures Run(m, Increment(s, AfterRotateY(p, s, count, dir))) ==
            Some(Machine(AfterRotateY(p, s, count, dir).flipper,
                         Yaw(m.frame, if dir == Regular then count else -count), m.turns))
  {
    RotateYShape(p, s, count, dir);
    var d := RotateYDelta(p, count, dir);
    var q := if dir == Regular then count else -count;
    assert d == 90 * q;
    var t := AfterRotateY(p, s, count, dir);
    var m1 := m.(flipper := t.flipper);
    RunYaw(m1, d, q);
    if p == Spike || s.flipper == Hold {
      var inc := [FlipperTo(Spin), TurntableBy(d)];
      assert Increment(s, t) == inc && inc[1..] == [TurntableBy(d)];
      assert Step(m, FlipperTo(Spin)) == Some(m1);
    } else {
      assert Increment(s, t) == [TurntableBy(d)];
      assert m1 == m;
    }
  }

  /** A turntable move of `q` quarters with the flipper off Hold turns the whole cube `q` quarters. */
  lemma RunYaw(m: Machine, d: int, q: int)
    requires m.flipper != Hold && d == 90 * q
    ensures Run(m, [TurntableBy(d)]) == Some(m.(frame := Yaw(m.frame, q)))
  {
    QuarterDegrees(q);
    assert [TurntableBy(d)][1..] == [];
  }

  /** A turn of `q` quarters is a whole number of quarters, `q` of them. */
  lemma QuarterDegrees(q: int)
    ensures (90 * q) % 90 == 0 && (90 * q) / 90 == q && (-90 * q) / 90 == -q
  {
  }

  /** The reorientation algebra behind the six face moves: each pair of reorientations cancels. */
  lemma FrameIdentities(f: Frame)
    ensures Tilts(f, 4) == f
    ensures Tilt(Tilts(f, 3)) == f
    ensures Yaw(Yaw(f, 1), -1) == f && Yaw(Yaw(f, -1), 1) == f
    ensures Tilts(Yaw(Tilts(Yaw(f, 2), 1), 2), 1) == f
    ensures Yaw(Tilts(Yaw(Tilts(Yaw(f, -1), 1), 2), 1), -1) == f
    ensures Yaw(Tilts(Yaw(Tilts(Yaw(f, 1), 1), 2), 1), 1) == f
  {
  }
}
