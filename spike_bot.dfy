/**
 * The SPIKE hub robot (cube_bot.py). Its module-level state becomes the
 * fields of one object: the flipper and turntable motors (the preset and
 * angle last commanded, and the trace of commands) and the six calibrated
 * reference colours. The colour sensor's readings (red, green, blue) are
 * passed in, in the order the robot takes them; the calibration file's bytes
 * are passed in and handed back. This copy has no scan buffer and no solver
 * moves: scanTile reports getSide's answer, which the model hands back.
 */
module SpikeBot {
  import opened Wrappers
  import opened Cube
  import opened Kinematics
  import opened Classifier
  import opened Calibration
  import opened Scanning

  /** `n` readings of three channels each. */
  predicate ThreeChannel(readings: seq<Color>, n: nat)
  {
    |readings| == n && forall k :: 0 <= k < n ==> |readings[k]| == 3
  }

  /** `sides` holds getSide's answer against `refs` for each of the first `|sides|` readings. */
  ghost predicate SidesOf(refs: seq<Option<Color>>, readings: seq<Color>, sides: seq<int>)
    requires WellFormed(refs, Manhattan)
  {
    && |sides| <= |readings|
    && forall k :: 0 <= k < |sides| ==> |readings[k]| == 3 && Classify(readings[k], refs, Manhattan) == Ok(sides[k])
  }

  /** The answers for the next stretch of readings extend the answers for the readings before it. */
  lemma SidesAppend(refs: seq<Option<Color>>, readings: seq<Color>, sides: seq<int>, more: seq<int>)
    requires WellFormed(refs, Manhattan) && SidesOf(refs, readings, sides)
    requires |sides| + |more| <= |readings|
    requires SidesOf(refs, readings[|sides|..|sides| + |more|], more)
    ensures SidesOf(refs, readings, sides + more)
  {
    var part := readings[|sides|..|sides| + |more|];
    forall k | 0 <= k < |sides + more|
      ensures |readings[k]| == 3 && Classify(readings[k], refs, Manhattan) == Ok((sides + more)[k])
    {
      if k >= |sides| {
        assert part[k - |sides|] == readings[k];
      }
    }
  }

  /** One more answer, for the next reading, extends the answers. */
  lemma SidesSnoc(refs: seq<Option<Color>>, readings: seq<Color>, sides: seq<int>, side: int)
    requires WellFormed(refs, Manhattan) && SidesOf(refs, readings, sides)
    requires |sides| < |readings| && |readings[|sides|]| == 3
    requires Classify(readings[|sides|], refs, Manhattan) == Ok(side)
    ensures SidesOf(refs, readings, sides + [side])
  {
  }

  /** The reference colours of the source's own commented-out checks of getSide. */
  const ExampleRefs: seq<Option<Color>> :=
    [Some([49, 13, 99]), Some([600, 346, 200]), Some([50, 500, 50]),
     Some([80, 660, 570]), Some([6, 760, 50]), Some([51, 15, 101])]

  /** The first check: (50, 14, 100) is at distance 3 from both U and B, and the tie goes to U, the earlier face. */
  lemma GetSideTie()
    ensures WellFormed(ExampleRefs, Manhattan) && Calibrated(ExampleRefs)
    ensures RefDistance([50, 14, 100], ExampleRefs, Manhattan, 0) == 3
    ensures RefDistance([50, 14, 100], ExampleRefs, Manhattan, 5) == 3
    ensures Classify([50, 14, 100], ExampleRefs, Manhattan) == Ok(0)
  {
    assert Scan([50, 14, 100], ExampleRefs, Manhattan, 6) == Ok((0, 3));
  }

  /** The second check: (50, 14, 287) goes to B. */
  lemma GetSideBack()
    ensures WellFormed(ExampleRefs, Manhattan)
    ensures Classify([50, 14, 287], ExampleRefs, Manhattan) == Ok(5)
  {
    assert Scan([50, 14, 287], ExampleRefs, Manhattan, 6) == Ok((5, 188));
  }

  /** The third check: (789, 660, 570) goes to D, whose reference it matches in two channels. */
  lemma GetSideDown()
    ensures WellFormed(ExampleRefs, Manhattan)
    ensures Classify([789, 660, 570], ExampleRefs, Manhattan) == Ok(3)
  {
    assert Scan([789, 660, 570], ExampleRefs, Manhattan, 6) == Ok((3, 709));
  }

  class CubeBot {
    var flipper: Preset
    var turntable: int
    var trace: seq<Cmd>
    /** colorReference: one slot per face in U, R, F, D, L, B order. */
    var colorReference: seq<Option<Color>>

    ghost predicate Valid()
      reads this`colorReference
    {
      WellFormed(colorReference, Manhattan)
    }

    function Pose(): Pose
      reads this`flipper, this`turntable, this`trace
    {
      Kinematics.Pose(flipper, turntable, trace)
    }

    /** Start-up: the references are what the calibration file holds (nothing, or the records before a short read). */
    constructor(file: Option<seq<Byte>>, flipper0: Preset, turntable0: int)
      ensures Valid()
      ensures Pose() == Kinematics.Pose(flipper0, turntable0, [])
      ensures forall f :: 0 <= f < 6 ==> colorReference[f] == Loaded(file, 3, f)
    {
      flipper := flipper0;
      turntable := turntable0;
      trace := [];
      var refs, ok := LoadReferences(file, 3);
      forall f | 0 <= f < 6
        ensures refs[f].Some? ==> |refs[f].value| == Channels(Manhattan)
      {
        LoadedWellFormed(file, 3, f);
      }
      colorReference := refs;
    }

    // ----- motors -----

    method RunFlipperTo(q: Preset)
      modifies this`flipper, this`trace
      ensures Pose() == MoveFlipper(old(Pose()), q)
    {
      flipper := q;
      trace := trace + [FlipperTo(q)];
    }

    method RunTurntableFor(degrees: int)
      modifies this`turntable, this`trace
      ensures Pose() == TurnBy(old(Pose()), degrees)
    {
      turntable := turntable + degrees;
      trace := trace + [TurntableBy(degrees)];
    }

    method RunTurntableTo(angle: int)
      modifies this`turntable, this`trace
      ensures Pose() == TurnTo(old(Pose()), angle)
    {
      turntable := angle;
      trace := trace + [TurntableTo(angle)];
    }

    /** Initialize: the flipper home, the turntable to its home angle 0. */
    method Initialize()
      modifies this`flipper, this`turntable, this`trace
      ensures Pose() == TurnTo(MoveFlipper(old(Pose()), Home), 0)
    {
      RunFlipperTo(Home);
      RunTurntableTo(0);
    }

    /** Solved: the flipper home. */
    method Solved()
      modifies this`flipper, this`trace
      ensures Pose() == MoveFlipper(old(Pose()), Home)
    {
      RunFlipperTo(Home);
    }

    // ----- primitives -----

    method FlipX(count: int)
      modifies this`flipper, this`trace
      ensures Pose() == AfterFlipX(old(Pose()), count)
    {
      ghost var s0 := Pose();
      var x := 0;
      while x < count
        invariant 0 <= x && (x <= count || x == 0)
        invariant Pose() == AfterFlipX(s0, x)
        decreases count - x
      {
        RunFlipperTo(Hold);
        RunFlipperTo(Flip);
        x := x + 1;
      }
    }

    method InternalRotateY(count: int, direction: Direction)
      modifies this`turntable, this`trace
      ensures Pose() == AfterInternalRotateY(Spike, old(Pose()), count, direction)
    {
      if direction == Regular {
        RunTurntableFor(90 * count);
      } else {
        RunTurntableFor(-90 * count);
      }
    }

    method RotateY(count: int, direction: Direction)
      modifies this`flipper, this`turntable, this`trace
      ensures Pose() == AfterRotateY(Spike, old(Pose()), count, direction)
    {
      RunFlipperTo(Spin);
      InternalRotateY(count, direction);
    }

    method TurnD(count: int, direction: Direction)
      modifies this`flipper, this`turntable, this`trace
      ensures Pose() == AfterTurnD(Spike, old(Pose()), count, direction)
    {
      RunFlipperTo(Hold);
      InternalRotateY(count, direction);
    }

    // ----- classification and scanning -----

    /** getSide, against the current references. */
    method GetSide(rgb: Color) returns (r: Result<int, ClassifyError>)
      requires Valid() && |rgb| == 3
      ensures r == Classify(rgb, colorReference, Manhattan)
      ensures r.Err? <==> !Calibrated(colorReference)
      ensures r.Ok? ==> FirstNearest(rgb, colorReference, Manhattan, r.value)
    {
      r := Classifier.GetSide(rgb, colorReference, Manhattan);
    }

    /** scanTile: read the sensor and classify the reading; with a reference missing the classification raises. */
    method ScanTile(face: nat, tile: nat, rgb: Color) returns (color: Result<int, ClassifyError>)
      requires Valid() && |rgb| == 3
      modifies this`trace
      ensures trace == old(trace) + [Sense(face, tile)]
      ensures color == Classify(rgb, colorReference, Manhattan)
      ensures color.Err? <==> !Calibrated(colorReference)
      ensures color.Ok? ==> FirstNearest(rgb, colorReference, Manhattan, color.value)
    {
      trace := trace + [Sense(face, tile)];
      color := GetSide(rgb);
    }

    /**
     * One pass of scanFace's loop over the perimeter: the corner or edge
     * preset, the tile's reading, then the turntable on by 45 degrees.
     */
    method ScanPerimeterStep(face: nat, tileIndex: nat, rgb: Color) returns (side: int)
      requires Valid() && Calibrated(colorReference) && tileIndex < 8 && |rgb| == 3
      modifies this`flipper, this`turntable, this`trace
      ensures Pose() == ScanFaceStep(Spike, old(Pose()), face, tileIndex)
      ensures Classify(rgb, colorReference, Manhattan) == Ok(side)
    {
      if tileIndex % 2 == 1 {
        RunFlipperTo(ScanCorner);
      } else {
        RunFlipperTo(ScanEdge);
      }
      var color := ScanTile(face, PerimeterTiles[tileIndex], rgb);
      RunTurntableFor(45);
      side := color.value;
    }

    /**
     * scanFace: the centre, then the perimeter, each tile read at the
     * corner or edge preset and followed by a 45 degree turntable step; the
     * answers come back in reading order, the `j`-th for tile
     * `ScanTiles[j]`. With a reference missing, the centre's getSide raises
     * and the face stops there.
     */
    method ScanFace(face: nat, readings: seq<Color>) returns (sides: seq<int>, err: Option<ClassifyError>)
      requires Valid() && ThreeChannel(readings, 9)
      modifies this`flipper, this`turntable, this`trace
      ensures err.None? <==> Calibrated(colorReference)
      ensures err.Some? ==>
                && err.value == Classify(readings[0], colorReference, Manhattan).error
                && Pose() == ReadCentre(old(Pose()), face) && sides == []
      ensures err.None? ==>
                && Pose() == AfterScanFace(Spike, old(Pose()), face)
                && Reads(old(Pose()), Pose(), FaceReadings(face, 9))
                && |sides| == 9 && SidesOf(colorReference, readings, sides)
    {
      ghost var s0 := Pose();
      RunFlipperTo(ScanCenter);
      var centre := ScanTile(face, 5, readings[0]);
      if centre.Err? {
        return [], Some(centre.error);
      }
      sides := [centre.value];
      for tileIndex := 0 to 8
        invariant Pose() == ScanFaceSteps(Spike, s0, face, tileIndex)
        invariant |sides| == tileIndex + 1 && SidesOf(colorReference, readings, sides)
      {
        var color := ScanPerimeterStep(face, tileIndex, readings[tileIndex + 1]);
        SidesSnoc(colorReference, readings, sides, color);
        sides := sides + [color];
      }
      ScanFaceReadings(Spike, s0, face);
      err := None;
    }

    /** The flips and turns scanCube makes before reading its `f`-th face. */
    method TurnToScanFace(f: nat)
      modifies this`flipper, this`turntable, this`trace
      ensures Pose() == ScanCubeLead(Spike, old(Pose()), f)
      ensures Reads(old(Pose()), Pose(), [])
    {
      ScanCubeLeadReads(Spike, Pose(), f);
      if f == 0 {
        RunFlipperTo(Hold);
        FlipX(1);
      } else if f <= 3 {
        FlipX(1);
      } else if f == 4 {
        RotateY(1, Regular);
        FlipX(1);
      } else {
        FlipX(2);
      }
    }

    /** scanCube's `f`-th stage: the cube turned so that face `ScanFaces[f]` is on top, then that face scanned. */
    method ScanCubeStage(f: nat, readings: seq<Color>, sides: seq<int>, ghost s0: Pose) returns (more: seq<int>)
      requires Valid() && Calibrated(colorReference) && f < 6 && ThreeChannel(readings, 54)
      requires |sides| == 9 * f && SidesOf(colorReference, readings, sides)
      requires Pose() == ScanCubeStages(Spike, s0, f)
      modifies this`flipper, this`turntable, this`trace
      ensures |more| == 9 * (f + 1) && SidesOf(colorReference, readings, more)
      ensures Pose() == ScanCubeStages(Spike, s0, f + 1)
      ensures Reads(s0, Pose(), ScanReadings(9 * (f + 1)))
    {
      TurnToScanFace(f);
      var part := readings[9 * f .. 9 * f + 9];
      assert forall j :: 0 <= j < 9 ==> part[j] == readings[9 * f + j];
      var face, e := ScanFace(ScanFaces[f], part);
      SidesAppend(colorReference, readings, sides, face);
      more := sides + face;
      ScanCubeStagesReads(Spike, s0, f + 1);
    }

    /** scanCube's six stages, from the first face's turn to the sixth face's scan. */
    method ScanAllFaces(readings: seq<Color>) returns (sides: seq<int>)
      requires Valid() && Calibrated(colorReference) && ThreeChannel(readings, 54)
      modifies this`flipper, this`turntable, this`trace
      ensures Pose() == ScanCubeStages(Spike, old(Pose()), 6)
      ensures Reads(old(Pose()), Pose(), ScanReadings(54))
      ensures |sides| == 54 && SidesOf(colorReference, readings, sides)
    {
      ghost var s0 := Pose();
      sides := [];
      sides := ScanCubeStage(0, readings, sides, s0);
      sides := ScanCubeStage(1, readings, sides, s0);
      sides := ScanCubeStage(2, readings, sides, s0);
      sides := ScanCubeStage(3, readings, sides, s0);
      sides := ScanCubeStage(4, readings, sides, s0);
      sides := ScanCubeStage(5, readings, sides, s0);
    }

    /** The last motions of scanCube, after the sixth face: the cube turned back towards where it started. */
    method TurnBackAfterScan()
      modifies this`flipper, this`turntable, this`trace
      ensures Pose() == ScanCubeTail(Spike, old(Pose()))
      ensures Reads(old(Pose()), Pose(), [])
    {
      ScanCubeTailReads(Spike, Pose());
      RotateY(1, Prime);
      FlipX(1);
      RotateY(1, Prime);
    }

    /**
     * scanCube: the six faces in the order U, F, D, B, R, L, each brought
     * over the sensor and scanned, then the cube turned back. Answer `k` is
     * getSide's answer for the `k`-th reading, the reading of facelet
     * `ScanIndex(k)`. With a reference missing, the first face's centre
     * raises and the scan stops there.
     */
    method ScanCube(readings: seq<Color>) returns (sides: seq<int>, err: Option<ClassifyError>)
      requires Valid() && ThreeChannel(readings, 54)
      modifies this`flipper, this`turntable, this`trace
      ensures err.None? <==> Calibrated(colorReference)
      ensures err.Some? ==>
                && err.value == Classify(readings[0], colorReference, Manhattan).error
                && Pose() == ReadCentre(ScanCubeLead(Spike, old(Pose()), 0), ScanFaces[0]) && sides == []
      ensures err.None? ==>
                && Pose() == AfterScanCube(Spike, old(Pose()))
                && Reads(old(Pose()), Pose(), ScanReadings(54))
                && (forall k :: 0 <= k < 54 ==>
                      FaceletIndex(ScanReadings(54)[k].0, ScanReadings(54)[k].1) == ScanIndex(k))
                && |sides| == 54
                && (forall k :: 0 <= k < 54 ==> Classify(readings[k], colorReference, Manhattan) == Ok(sides[k]))
    {
      if !Calibrated(colorReference) {
        TurnToScanFace(0);
        sides, err := ScanFace(ScanFaces[0], readings[..9]);
        return;
      }
      ghost var s0 := Pose();
      sides := ScanAllFaces(readings);
      TurnBackAfterScan();
      ScanCubeReads(Spike, s0);
      err := None;
    }

    // ----- calibration -----

    /** calibrateCenter: the centre preset, one reading, stored as the face's reference. */
    method CalibrateCenter(face: nat, rgb: Color)
      requires |colorReference| == 6 && face < 6
      modifies this`flipper, this`trace, this`colorReference
      ensures Pose() == ReadCentre(old(Pose()), face)
      ensures colorReference == old(colorReference)[face := Some(rgb)]
    {
      RunFlipperTo(ScanCenter);
      trace := trace + [Sense(face, 5)];
      colorReference := colorReference[face := Some(rgb)];
    }

    /**
     * calibrate's `k`-th step: its flips and turns, then calibrateCenter on
     * the `k`-th face of its order with the `k`-th reading.
     */
    method CalibrateStep(k: nat, readings: seq<Color>, ghost s0: Pose, ghost r0: seq<Option<Color>>)
      requires k < 6 && |readings| == 6 && |r0| == 6
      requires Pose() == CalibrateStages(Spike, s0, k) && colorReference == RefsAfter(r0, readings, k)
      modifies this`flipper, this`turntable, this`trace, this`colorReference
      ensures Pose() == CalibrateStages(Spike, s0, k + 1) && colorReference == RefsAfter(r0, readings, k + 1)
    {
      if k == 0 {
        RunFlipperTo(Hold);
        FlipX(1);
      } else if k <= 3 {
        FlipX(1);
      } else if k == 4 {
        RotateY(1, Regular);
        FlipX(1);
      } else {
        FlipX(2);
      }
      CalibrateCenter(CalibrationOrder[k], readings[k]);
    }

    /** calibrate's six steps, from the first flip to the sixth centre's reading. */
    method CalibrateAllSteps(readings: seq<Color>)
      requires |colorReference| == 6 && |readings| == 6
      modifies this`flipper, this`turntable, this`trace, this`colorReference
      ensures Pose() == CalibrateStages(Spike, old(Pose()), 6)
      ensures colorReference == RefsAfter(old(colorReference), readings, 6)
    {
      ghost var s0 := Pose();
      ghost var r0 := colorReference;
      CalibrateStep(0, readings, s0, r0);
      CalibrateStep(1, readings, s0, r0);
      CalibrateStep(2, readings, s0, r0);
      CalibrateStep(3, readings, s0, r0);
      CalibrateStep(4, readings, s0, r0);
      CalibrateStep(5, readings, s0, r0);
    }

    /** The last motions of calibrate, after the sixth centre. */
    method TurnBackAfterCalibrate()
      modifies this`flipper, this`turntable, this`trace
      ensures Pose() == CalibrateTail(Spike, old(Pose()))
      ensures Reads(old(Pose()), Pose(), [])
    {
      CalibrateTailReads(Spike, Pose());
      RotateY(1, Prime);
      FlipX(1);
      RotateY(1, Prime);
    }

    /** The motions and readings of calibrate, before the references are saved. */
    method CalibrateCenters(readings: seq<Color>)
      requires Valid() && ThreeChannel(readings, 6)
      modifies this`flipper, this`turntable, this`trace, this`colorReference
      ensures Valid() && Calibrated(colorReference)
      ensures Pose() == AfterCalibrate(Spike, old(Pose()))
      ensures Reads(old(Pose()), Pose(), CalibrationReadings(6))
      ensures colorReference == [Some(readings[0]), Some(readings[4]), Some(readings[1]),
                                 Some(readings[2]), Some(readings[5]), Some(readings[3])]
    {
      CalibrateReads(Spike, Pose());
      ghost var r0 := colorReference;
      CalibrateAllSteps(readings);
      CalibrationFillsAll(r0, readings, Manhattan);
      ghost var refs := colorReference;
      TurnBackAfterCalibrate();
      assert colorReference == refs;
    }

    /**
     * calibrate: reads every face's centre once, in the order U, F, D, B, R,
     * L, so that all six references are set, and then saves them as six `3I`
     * records, which load back as the same references; a reading that does
     * not fit an unsigned 32-bit word stops the save at that face.
     */
    method Calibrate(readings: seq<Color>) returns (data: seq<Byte>, err: Option<SaveError>)
      requires Valid() && ThreeChannel(readings, 6)
      modifies this`flipper, this`turntable, this`trace, this`colorReference
      ensures Valid() && Calibrated(colorReference)
      ensures Pose() == AfterCalibrate(Spike, old(Pose()))
      ensures Reads(old(Pose()), Pose(), CalibrationReadings(6))
      ensures forall k :: 0 <= k < 6 ==> CalibrationReadings(6)[k] == (CalibrationOrder[k], 5, ScanCenter)
      ensures colorReference == [Some(readings[0]), Some(readings[4]), Some(readings[1]),
                                 Some(readings[2]), Some(readings[5]), Some(readings[3])]
      ensures err.None? <==> forall f :: 0 <= f < 6 ==> WordColor(colorReference[f].value)
      ensures err.None? ==> forall f :: 0 <= f < 6 ==> Loaded(Some(data), 3, f) == colorReference[f]
      ensures err.Some? ==>
                && err.value.BadRecord? && err.value.face < 6
                && !WordColor(colorReference[err.value.face].value)
                && (forall i :: 0 <= i < err.value.face ==> WordColor(colorReference[i].value))
                && data == PackAll(colorReference[..err.value.face], 3)
    {
      CalibrateCenters(readings);
      data, err := SaveReferences(colorReference, 3);
      if err.None? {
        forall f | 0 <= f < 6
          ensures Loaded(Some(data), 3, f) == colorReference[f]
        {
          SaveLoadRoundTrip(colorReference, 3, f);
        }
      }
    }
  }
}
