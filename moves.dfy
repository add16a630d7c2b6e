/**
 * The six face moves of the Pi copy, uMove ... dMove. Each turns the cube
 * so that the face to move lies on the turntable, turns that bottom layer
 * with turnD, and turns the cube back. solveCube performs one such move per
 * piece of the solver's answer.
 */
module Moves {
  import opened Wrappers
  import opened Cube
  import opened Kinematics
  import opened Orientation
  import opened Notation

  // The six move functions, each a fixed composition of the primitives.

  /** uMove: flipX(2), turnD, flipX(2). */
  function AfterUMove(s: Pose, c: int, d: Direction): Pose
  {
    AfterFlipX(AfterTurnD(Pi, AfterFlipX(s, 2), c, d), 2)
  }

  /** fMove: rotateY(2), flipX(1), turnD, rotateY(2), flipX(1). */
  function AfterFMove(s: Pose, c: int, d: Direction): Pose
  {
    AfterFlipX(AfterRotateY(Pi, AfterTurnD(Pi, AfterFlipX(AfterRotateY(Pi, s, 2, Regular), 1), c, d), 2, Regular), 1)
  }

  /** bMove: flipX(1), turnD, flipX(3). */
  function AfterBMove(s: Pose, c: int, d: Direction): Pose
  {
    AfterFlipX(AfterTurnD(Pi, AfterFlipX(s, 1), c, d), 3)
  }

  /** rMove: rotateY(1, prime), flipX(1), turnD, rotateY(2), flipX(1), rotateY(1, prime). */
  function AfterRMove(s: Pose, c: int, d: Direction): Pose
  {
    AfterRotateY(Pi, AfterFlipX(AfterRotateY(Pi, AfterTurnD(Pi, AfterFlipX(AfterRotateY(Pi, s, 1, Prime), 1), c, d), 2, Regular), 1), 1, Prime)
  }

  /** lMove: rotateY(1), flipX(1), turnD, rotateY(2), flipX(1), rotateY(1). */
  function AfterLMove(s: Pose, c: int, d: Direction): Pose
  {
    AfterRotateY(Pi, AfterFlipX(AfterRotateY(Pi, AfterTurnD(Pi, AfterFlipX(AfterRotateY(Pi, s, 1, Regular), 1), c, d), 2, Regular), 1), 1, Regular)
  }

  /** The pose after `<face>Move(count, direction)` on the Pi; dMove is turnD alone. */
  function AfterMove(s: Pose, mv: Move): Pose
  {
    match mv.face
    case U => AfterUMove(s, mv.count, mv.dir)
    case F => AfterFMove(s, mv.count, mv.dir)
    case B => AfterBMove(s, mv.count, mv.dir)
    case R => AfterRMove(s, mv.count, mv.dir)
    case L => AfterLMove(s, mv.count, mv.dir)
    case D => AfterTurnD(Pi, s, mv.count, mv.dir)
  }

  /** The pose after a list of moves, one after the other. */
  function AfterMoves(s: Pose, moves: seq<Move>): Pose
    decreases |moves|
  {
    if moves == [] then s else AfterMove(AfterMoves(s, moves[..|moves| - 1]), moves[|moves| - 1])
  }

  /** Whole turns of the turntable a move adds on top of its turnD: F and L turn the cube twice by 180 degrees. */
  function Winding(face: Face): int
  {
    if face == F || face == L then 1 else 0
  }

  /** The layer turn a move asks for, when the cube sits in frame `fr`. */
  function TurnOf(fr: Frame, mv: Move): Turn
  {
    Turn(At(fr, mv.face), Quarters(mv.count, mv.dir))
  }

  function TurnsOf(fr: Frame, moves: seq<Move>): (ts: seq<Turn>)
    ensures |ts| == |moves|
  {
    seq(|moves|, k requires 0 <= k < |moves| => TurnOf(fr, moves[k]))
  }

  lemma TurnsOfSnoc(fr: Frame, moves: seq<Move>)
    requires moves != []
    ensures TurnsOf(fr, moves[..|moves| - 1]) + [TurnOf(fr, moves[|moves| - 1])] == TurnsOf(fr, moves)
  {
    var k := |moves| - 1;
    var lhs := TurnsOf(fr, moves[..k]) + [TurnOf(fr, moves[k])];
    forall i | 0 <= i < |moves|
      ensures lhs[i] == TurnsOf(fr, moves)[i]
    {
      if i < k {
        assert moves[..k][i] == moves[i];
      }
    }
  }

  /** Two successive stretches of a run compose. */
  lemma Then(m0: Machine, s0: Pose, s1: Pose, s2: Pose, m1: Machine, m2: Machine)
    requires s0.trace <= s1.trace <= s2.trace
    requires Run(m0, Increment(s0, s1)) == Some(m1)
    requires Run(m1, Increment(s1, s2)) == Some(m2)
    ensures Run(m0, Increment(s0, s2)) == Some(m2)
  {
    RunThrough(m0, s0, s1, s2, m1);
  }

  /**
   * Each face move, read physically from any frame, turns exactly one layer,
   * the one holding the face it is named after (in that frame), by the
   * quarter turns its count and direction ask for, and leaves the cube in
   * the frame it found it in: the reorientations around turnD cancel.
   */
  lemma MoveEffect(fr: Frame, ts: seq<Turn>, s: Pose, mv: Move)
    ensures s.trace <= AfterMove(s, mv).trace
    ensures Run(Machine(s.flipper, fr, ts), Increment(s, AfterMove(s, mv))) ==
            Some(Machine(AfterMove(s, mv).flipper, fr, ts + [TurnOf(fr, mv)]))
  {
    match mv.face
    case U => EffectU(fr, ts, s, mv.count, mv.dir);
    case F => EffectF(fr, ts, s, mv.count, mv.dir);
    case B => EffectB(fr, ts, s, mv.count, mv.dir);
    case R => EffectR(fr, ts, s, mv.count, mv.dir);
    case L => EffectL(fr, ts, s, mv.count, mv.dir);
    case D => RunTurnD(Machine(s.flipper, fr, ts), s, mv.count, mv.dir);
  }

  /** The middle of fMove, rMove and lMove: turnD, a half turn of the cube, then one flip. */
  lemma TurnAndTurnBack(m: Machine, s: Pose, c: int, d: Direction)
    requires m.flipper == s.flipper
    ensures s.trace <= AfterFlipX(AfterRotateY(Pi, AfterTurnD(Pi, s, c, d), 2, Regular), 1).trace
    ensures Run(m, Increment(s, AfterFlipX(AfterRotateY(Pi, AfterTurnD(Pi, s, c, d), 2, Regular), 1))) ==
            Some(Machine(AfterFlipX(AfterRotateY(Pi, AfterTurnD(Pi, s, c, d), 2, Regular), 1).flipper,
                         Tilts(Yaw(m.frame, 2), 1), m.turns + [Turn(m.frame.bottom, Quarters(c, d))]))
  {
    var s3 := AfterTurnD(Pi, s, c, d);
    var s4 := AfterRotateY(Pi, s3, 2, Regular);
    var s5 := AfterFlipX(s4, 1);
    var done := m.turns + [Turn(m.frame.bottom, Quarters(c, d))];
    RunTurnD(m, s, c, d);
    var m3 := Machine(Hold, m.frame, done);
    RunRotateY(Pi, m3, s3, 2, Regular);
    var m4 := Machine(s4.flipper, Yaw(m.frame, 2), done);
    Then(m, s, s3, s4, m3, m4);
    RunFlipX(m4, s4, 1);
    Then(m, s, s4, s5, m4, Machine(s5.flipper, Tilts(Yaw(m.frame, 2), 1), done));
  }

  /** uMove from frame `fr` turns the layer of fr.top and restores the frame. */
  lemma EffectU(fr: Frame, ts: seq<Turn>, s: Pose, c: int, d: Direction)
    ensures s.trace <= AfterUMove(s, c, d).trace
    ensures Run(Machine(s.flipper, fr, ts), Increment(s, AfterUMove(s, c, d))) ==
            Some(Machine(AfterUMove(s, c, d).flipper, fr, ts + [Turn(fr.top, Quarters(c, d))]))
  {
    var m0 := Machine(s.flipper, fr, ts);
    var done := ts + [Turn(fr.top, Quarters(c, d))];
    var s1 := AfterFlipX(s, 2);
    var s2 := AfterTurnD(Pi, s1, c, d);
    var s3 := AfterFlipX(s2, 2);
    RunFlipX(m0, s, 2);
    var m1 := Machine(s1.flipper, Tilts(fr, 2), ts);
    RunTurnD(m1, s1, c, d);
    var m2 := Machine(Hold, m1.frame, done);
    Then(m0, s, s1, s2, m1, m2);
    RunFlipX(m2, s2, 2);
    assert Tilts(Tilts(fr, 2), 2) == fr;
    Then(m0, s, s2, s3, m2, Machine(s3.flipper, fr, done));
  }

  /** fMove from frame `fr` turns the layer of fr.front and restores the frame. */
  lemma EffectF(fr: Frame, ts: seq<Turn>, s: Pose, c: int, d: Direction)
    ensures s.trace <= AfterFMove(s, c, d).trace
    ensures Run(Machine(s.flipper, fr, ts), Increment(s, AfterFMove(s, c, d))) ==
            Some(Machine(AfterFMove(s, c, d).flipper, fr, ts + [Turn(fr.front, Quarters(c, d))]))
  {
    var m0 := Machine(s.flipper, fr, ts);
    var done := ts + [Turn(fr.front, Quarters(c, d))];
    var s2 := AfterFlipX(AfterRotateY(Pi, s, 2, Regular), 1);
    TurnCubeAndFlip(m0, s, 2, Regular);
    var m2 := Machine(s2.flipper, Tilts(Yaw(fr, 2), 1), ts);
    TurnAndTurnBack(m2, s2, c, d);
    FrameIdentities(fr);
    assert m2.frame.bottom == fr.front;
    Then(m0, s, s2, AfterFMove(s, c, d), m2, Machine(AfterFMove(s, c, d).flipper, fr, done));
  }

  /** bMove from frame `fr` turns the layer of fr.back and restores the frame. */
  lemma EffectB(fr: Frame, ts: seq<Turn>, s: Pose, c: int, d: Direction)
    ensures s.trace <= AfterBMove(s, c, d).trace
    ensures Run(Machine(s.flipper, fr, ts), Increment(s, AfterBMove(s, c, d))) ==
            Some(Machine(AfterBMove(s, c, d).flipper, fr, ts + [Turn(fr.back, Quarters(c, d))]))
  {
    var m0 := Machine(s.flipper, fr, ts);
    var done := ts + [Turn(fr.back, Quarters(c, d))];
    var s1 := AfterFlipX(s, 1);
    var s2 := AfterTurnD(Pi, s1, c, d);
    var s3 := AfterFlipX(s2, 3);
    RunFlipX(m0, s, 1);
    var m1 := Machine(s1.flipper, Tilts(fr, 1), ts);
    RunTurnD(m1, s1, c, d);
    var m2 := Machine(Hold, m1.frame, done);
    Then(m0, s, s1, s2, m1, m2);
    RunFlipX(m2, s2, 3);
    assert Tilts(Tilts(fr, 1), 3) == fr;
    Then(m0, s, s2, s3, m2, Machine(s3.flipper, fr, done));
  }

  /** The start of fMove, rMove and lMove: `count` quarter turns of the cube, then one flip. */
  lemma TurnCubeAndFlip(m: Machine, s: Pose, count: int, dir: Direction)
    requires m.flipper == s.flipper
    ensures s.trace <= AfterFlipX(AfterRotateY(Pi, s, count, dir), 1).trace
    ensures Run(m, Increment(s, AfterFlipX(AfterRotateY(Pi, s, count, dir), 1))) ==
            Some(Machine(AfterFlipX(AfterRotateY(Pi, s, count, dir), 1).flipper,
                         Tilts(Yaw(m.frame, if dir == Regular then count else -count), 1), m.turns))
  {
    var s1 := AfterRotateY(Pi, s, count, dir);
    var s2 := AfterFlipX(s1, 1);
    RunRotateY(Pi, m, s, count, dir);
    var m1 := Machine(s1.flipper, Yaw(m.frame, if dir == Regular then count else -count), m.turns);
    RunFlipX(m1, s1, 1);
    Then(m, s, s1, s2, m1, Machine(s2.flipper, Tilts(m1.frame, 1), m.turns));
  }

  /** The end of rMove and lMove: turnD, a half turn of the cube, one flip, and a quarter turn of the cube. */
  lemma TurnAndQuarterBack(m: Machine, s: Pose, c: int, d: Direction, dir: Direction)
    requires m.flipper == s.flipper
    ensures s.trace <= AfterRotateY(Pi, AfterFlipX(AfterRotateY(Pi, AfterTurnD(Pi, s, c, d), 2, Regular), 1), 1, dir).trace
    ensures Run(m, Increment(s, AfterRotateY(Pi, AfterFlipX(AfterRotateY(Pi, AfterTurnD(Pi, s, c, d), 2, Regular), 1), 1, dir))) ==
            Some(Machine(AfterRotateY(Pi, AfterFlipX(AfterRotateY(Pi, AfterTurnD(Pi, s, c, d), 2, Regular), 1), 1, dir).flipper,
                         Yaw(Tilts(Yaw(m.frame, 2), 1), if dir == Regular then 1 else -1),
                         m.turns + [Turn(m.frame.bottom, Quarters(c, d))]))
  {
    var s5 := AfterFlipX(AfterRotateY(Pi, AfterTurnD(Pi, s, c, d), 2, Regular), 1);
    var s6 := AfterRotateY(Pi, s5, 1, dir);
    TurnAndTurnBack(m, s, c, d);
    var m5 := Machine(s5.flipper, Tilts(Yaw(m.frame, 2), 1), m.turns + [Turn(m.frame.bottom, Quarters(c, d))]);
    RunRotateY(Pi, m5, s5, 1, dir);
    Then(m, s, s5, s6, m5, Machine(s6.flipper, Yaw(m5.frame, if dir == Regular then 1 else -1), m5.turns));
  }

  /** rMove from frame `fr` turns the layer of fr.right and restores the frame. */
  lemma EffectR(fr: Frame, ts: seq<Turn>, s: Pose, c: int, d: Direction)
    ensures s.trace <= AfterRMove(s, c, d).trace
    ensures Run(Machine(s.flipper, fr, ts), Increment(s, AfterRMove(s, c, d))) ==
            Some(Machine(AfterRMove(s, c, d).flipper, fr, ts + [Turn(fr.right, Quarters(c, d))]))
  {
    var m0 := Machine(s.flipper, fr, ts);
    var s2 := AfterFlipX(AfterRotateY(Pi, s, 1, Prime), 1);
    TurnCubeAndFlip(m0, s, 1, Prime);
    var m2 := Machine(s2.flipper, Tilts(Yaw(fr, -1), 1), ts);
    TurnAndQuarterBack(m2, s2, c, d, Prime);
    FrameIdentities(fr);
    assert m2.frame.bottom == fr.right;
    Then(m0, s, s2, AfterRMove(s, c, d), m2, Machine(AfterRMove(s, c, d).flipper, fr, ts + [Turn(fr.right, Quarters(c, d))]));
  }

  /** lMove from frame `fr` turns the layer of fr.left and restores the frame. */
  lemma EffectL(fr: Frame, ts: seq<Turn>, s: Pose, c: int, d: Direction)
    ensures s.trace <= AfterLMove(s, c, d).trace
    ensures Run(Machine(s.flipper, fr, ts), Increment(s, AfterLMove(s, c, d))) ==
            Some(Machine(AfterLMove(s, c, d).flipper, fr, ts + [Turn(fr.left, Quarters(c, d))]))
  {
    var m0 := Machine(s.flipper, fr, ts);
    var s2 := AfterFlipX(AfterRotateY(Pi, s, 1, Regular), 1);
    TurnCubeAndFlip(m0, s, 1, Regular);
    var m2 := Machine(s2.flipper, Tilts(Yaw(fr, 1), 1), ts);
    TurnAndQuarterBack(m2, s2, c, d, Regular);
    FrameIdentities(fr);
    assert m2.frame.bottom == fr.left;
    Then(m0, s, s2, AfterLMove(s, c, d), m2, Machine(AfterLMove(s, c, d).flipper, fr, ts + [Turn(fr.left, Quarters(c, d))]));
  }

  /**
   * solveCube's moves, read physically: starting with the cube in any frame,
   * the layers turned are exactly the moves' faces (in that frame), in order,
   * and the cube ends in the frame it started in.
   */
  lemma {:induction false} MovesEffect(fr: Frame, ts: seq<Turn>, s: Pose, moves: seq<Move>)
    ensures s.trace <= AfterMoves(s, moves).trace
    ensures Run(Machine(s.flipper, fr, ts), Increment(s, AfterMoves(s, moves))) ==
            Some(Machine(AfterMoves(s, moves).flipper, fr, ts + TurnsOf(fr, moves)))
    decreases |moves|
  {
    if moves == [] {
      assert Increment(s, s) == [];
      assert ts + TurnsOf(fr, moves) == ts;
    } else {
      var k := |moves| - 1;
      var front := moves[..k];
      var mid := AfterMoves(s, front);
      var t := AfterMoves(s, moves);
      assert t == AfterMove(mid, moves[k]);
      var before := ts + TurnsOf(fr, front);
      MovesEffect(fr, ts, s, front);
      MoveEffect(fr, before, mid, moves[k]);
      var m1 := Machine(mid.flipper, fr, before);
      var m2 := Machine(t.flipper, fr, before + [TurnOf(fr, moves[k])]);
      Then(Machine(s.flipper, fr, ts), s, mid, t, m1, m2);
      TurnsOfSnoc(fr, moves);
      assert before + [TurnOf(fr, moves[k])] == ts + (TurnsOf(fr, front) + [TurnOf(fr, moves[k])]);
    }
  }

  /** From the upright frame the solver's notation assumes, move `U` turns U, move `R` turns R, and so on. */
  lemma UprightMoves(moves: seq<Move>)
    ensures forall k :: 0 <= k < |moves| ==> TurnsOf(Upright, moves)[k].face == moves[k].face
  {
  }

  /**
   * The rotateY calls inside a move cancel out: a move turns the turntable by
   * turnD's amount plus a whole number of full turns (one for F and L, which
   * turn the cube by 180 degrees twice, none for the others).
   */
  lemma MoveTurntable(s: Pose, mv: Move)
    ensures AfterMove(s, mv).turntable == s.turntable + InternalDelta(Pi, mv.count, mv.dir) + 360 * Winding(mv.face)
    ensures (AfterMove(s, mv).turntable - s.turntable - InternalDelta(Pi, mv.count, mv.dir)) % 360 == 0
  {
    var c := mv.count;
    var d := mv.dir;
    match mv.face
    case U =>
      FlipXTurntable(s, 2);
      FlipXTurntable(AfterTurnD(Pi, AfterFlipX(s, 2), c, d), 2);
    case F =>
      FlipXTurntable(AfterRotateY(Pi, s, 2, Regular), 1);
      FlipXTurntable(AfterRotateY(Pi, AfterTurnD(Pi, AfterFlipX(AfterRotateY(Pi, s, 2, Regular), 1), c, d), 2, Regular), 1);
    case B =>
      FlipXTurntable(s, 1);
      FlipXTurntable(AfterTurnD(Pi, AfterFlipX(s, 1), c, d), 3);
    case R =>
      FlipXTurntable(AfterRotateY(Pi, s, 1, Prime), 1);
      FlipXTurntable(AfterRotateY(Pi, AfterTurnD(Pi, AfterFlipX(AfterRotateY(Pi, s, 1, Prime), 1), c, d), 2, Regular), 1);
    case L =>
      FlipXTurntable(AfterRotateY(Pi, s, 1, Regular), 1);
      FlipXTurntable(AfterRotateY(Pi, AfterTurnD(Pi, AfterFlipX(AfterRotateY(Pi, s, 1, Regular), 1), c, d), 2, Regular), 1);
    case D =>
  }

  /** A move keeps the rule that the flipper only ever reaches Flip from Hold. */
  lemma MoveKeepsFlipRule(s: Pose, mv: Move)
    requires FlipOnlyFromHold(s.trace)
    ensures FlipOnlyFromHold(AfterMove(s, mv).trace)
  {
    var c := mv.count;
    var d := mv.dir;
    match mv.face
    case U =>
      var s1 := AfterFlipX(s, 2);
      FlipXShape(s, 2);
      TurnDShape(Pi, s1, c, d);
      FlipXShape(AfterTurnD(Pi, s1, c, d), 2);
    case F =>
      var s1 := AfterRotateY(Pi, s, 2, Regular);
      var s2 := AfterFlipX(s1, 1);
      var s3 := AfterTurnD(Pi, s2, c, d);
      var s4 := AfterRotateY(Pi, s3, 2, Regular);
      RotateYShape(Pi, s, 2, Regular);
      FlipXShape(s1, 1);
      TurnDShape(Pi, s2, c, d);
      RotateYShape(Pi, s3, 2, Regular);
      FlipXShape(s4, 1);
    case B =>
      var s1 := AfterFlipX(s, 1);
      FlipXShape(s, 1);
      TurnDShape(Pi, s1, c, d);
      FlipXShape(AfterTurnD(Pi, s1, c, d), 3);
    case R =>
      var s1 := AfterRotateY(Pi, s, 1, Prime);
      var s2 := AfterFlipX(s1, 1);
      var s3 := AfterTurnD(Pi, s2, c, d);
      var s4 := AfterRotateY(Pi, s3, 2, Regular);
      var s5 := AfterFlipX(s4, 1);
      RotateYShape(Pi, s, 1, Prime);
      FlipXShape(s1, 1);
      TurnDShape(Pi, s2, c, d);
      RotateYShape(Pi, s3, 2, Regular);
      FlipXShape(s4, 1);
      RotateYShape(Pi, s5, 1, Prime);
    case L =>
      var s1 := AfterRotateY(Pi, s, 1, Regular);
      var s2 := AfterFlipX(s1, 1);
      var s3 := AfterTurnD(Pi, s2, c, d);
      var s4 := AfterRotateY(Pi, s3, 2, Regular);
      var s5 := AfterFlipX(s4, 1);
      RotateYShape(Pi, s, 1, Regular);
      FlipXShape(s1, 1);
      TurnDShape(Pi, s2, c, d);
      RotateYShape(Pi, s3, 2, Regular);
      FlipXShape(s4, 1);
      RotateYShape(Pi, s5, 1, Regular);
    case D =>
      TurnDShape(Pi, s, c, d);
  }
}
