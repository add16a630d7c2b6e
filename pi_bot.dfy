/**
 * The Raspberry Pi / Build HAT robot (cube_bot_pi.py). Its module-level
 * state becomes the fields of one object: the flipper and turntable motors
 * (the preset and angle last commanded, and the trace of commands), the six
 * calibrated reference colours, and the 54-slot scan buffer. The colour
 * sensor's readings are passed in, in the order the robot takes them, and
 * the calibration file's bytes are passed in and handed back.
 */
module PiBot {
  import opened Wrappers
  import opened Cube
  import opened Kinematics
  import opened Classifier
  import opened Calibration
  import opened Notation
  import opened Scanning
  import opened Moves

  /** The letter scanTile stores for a reading: `faceTable[getSide(rgb)]` (the sentinel -1 reads as 'B'). */
  function Label(refs: seq<Option<Color>>, rgb: Color): char
    requires WellFormed(refs, SquaredEuclidean) && Calibrated(refs) && |rgb| == 4
  {
    FaceLetter(Classify(rgb, refs, SquaredEuclidean).value)
  }

  /** The letters scanTile stores for a run of readings, in reading order. */
  function Labels(refs: seq<Option<Color>>, readings: seq<Color>): (r: seq<char>)
    requires WellFormed(refs, SquaredEuclidean) && Calibrated(refs)
    requires forall k :: 0 <= k < |readings| ==> |readings[k]| == 4
    ensures |r| == |readings|
    decreases |readings|
  {
    if |readings| == 0 then []
    else Labels(refs, readings[..|readings| - 1]) + [Label(refs, readings[|readings| - 1])]
  }

  /** Letter `k` of a run is the letter of reading `k`. */
  lemma {:induction false} LabelsAt(refs: seq<Option<Color>>, readings: seq<Color>, k: nat)
    requires WellFormed(refs, SquaredEuclidean) && Calibrated(refs)
    requires forall j :: 0 <= j < |readings| ==> |readings[j]| == 4
    requires k < |readings|
    ensures Labels(refs, readings)[k] == Label(refs, readings[k])
    decreases |readings|
  {
    var last := |readings| - 1;
    if k < last {
      var init := readings[..last];
      LabelsAt(refs, init, k);
      assert init[k] == readings[k];
    }
  }

  /** The letters of a stretch of readings are that stretch of the letters. */
  lemma LabelsSlice(refs: seq<Option<Color>>, readings: seq<Color>, lo: nat, hi: nat)
    requires WellFormed(refs, SquaredEuclidean) && Calibrated(refs)
    requires forall k :: 0 <= k < |readings| ==> |readings[k]| == 4
    requires lo <= hi <= |readings|
    ensures Labels(refs, readings[lo..hi]) == Labels(refs, readings)[lo..hi]
  {
    var part := readings[lo..hi];
    forall k | 0 <= k < hi - lo
      ensures Labels(refs, part)[k] == Labels(refs, readings)[lo + k]
    {
      LabelsAt(refs, part, k);
      LabelsAt(refs, readings, lo + k);
      assert part[k] == readings[lo + k];
    }
  }

  /** A log extended by a prefix one longer is the log extended by the prefix, then the next element. */
  lemma PrefixSnoc(w: seq<nat>, s: seq<nat>, n: nat)
    requires n < |s|
    ensures w + s[..n + 1] == (w + s[..n]) + [s[n]]
  {
    assert s[..n + 1] == s[..n] + [s[n]];
  }

  /** The buffer after scanFace has stored the first `n` of a face's nine letters, centre first. */
  function FaceWrites(buf: seq<Option<char>>, face: nat, letters: seq<char>, n: nat): (r: seq<Option<char>>)
    requires |buf| == 54 && face < 6 && |letters| == 9 && n <= 9
    ensures |r| == 54
    decreases n
  {
    if n == 0 then buf
    else
      FaceIndexAt(face, n - 1);
      FaceWrites(buf, face, letters, n - 1)[FaceletIndex(face, ScanTiles[n - 1]) := Some(letters[n - 1])]
  }

  /**
   * What scanFace's stores amount to: each of the first `n` tiles of the
   * face holds its letter, and no slot of another face changes.
   */
  lemma {:induction false} FaceWritesMeaning(buf: seq<Option<char>>, face: nat, letters: seq<char>, n: nat)
    requires |buf| == 54 && face < 6 && |letters| == 9 && n <= 9
    ensures forall j :: 0 <= j < n ==> FaceWrites(buf, face, letters, n)[FaceIndices(face)[j]] == Some(letters[j])
    ensures forall i :: 0 <= i < 54 && i / 9 != face ==> FaceWrites(buf, face, letters, n)[i] == buf[i]
    decreases n
  {
    if n > 0 {
      FaceWritesMeaning(buf, face, letters, n - 1);
      FaceIndicesDistinct(face);
      FaceIndexAt(face, n - 1);
      var prev := FaceWrites(buf, face, letters, n - 1);
      var slot := FaceIndices(face)[n - 1];
      var r := FaceWrites(buf, face, letters, n);
      assert r == prev[slot := Some(letters[n - 1])];
      forall j | 0 <= j < n
        ensures r[FaceIndices(face)[j]] == Some(letters[j])
      {
        if j < n - 1 {
          assert FaceIndices(face)[j] != slot;
        }
      }
    }
  }

  /** The buffer holds letter `k` at the slot of reading `k`, for the first `n` readings of a scan. */
  ghost predicate Filled(buf: seq<Option<char>>, letters: seq<char>, n: nat)
    requires |buf| == 54 && |letters| == 54 && n <= 54
  {
    forall k :: 0 <= k < n ==> buf[ScanIndex(k)] == Some(letters[k])
  }

  /** scanFace on scan face `f` with its nine readings extends what a buffer holding the earlier faces holds. */
  lemma ReadingsFill(before: seq<Option<char>>, after: seq<Option<char>>, refs: seq<Option<Color>>,
                     readings: seq<Color>, f: nat)
    requires WellFormed(refs, SquaredEuclidean) && Calibrated(refs)
    requires |readings| == 54 && forall k :: 0 <= k < 54 ==> |readings[k]| == 4
    requires |before| == 54 && f < 6 && ScanFaces[f] < 6
    requires Filled(before, Labels(refs, readings), 9 * f)
    requires after == FaceWrites(before, ScanFaces[f], Labels(refs, readings[9 * f .. 9 * f + 9]), 9)
    ensures Filled(after, Labels(refs, readings), 9 * (f + 1))
  {
    LabelsSlice(refs, readings, 9 * f, 9 * f + 9);
    FaceStepFills(before, Labels(refs, readings), f);
  }

  /** Storing the letters of scan face `f` into a buffer that holds the faces before it fills the buffer up to that face. */
  lemma FaceStepFills(before: seq<Option<char>>, letters: seq<char>, f: nat)
    requires |before| == 54 && |letters| == 54 && f < 6
    requires Filled(before, letters, 9 * f)
    ensures ScanFaces[f] < 6
    ensures Filled(FaceWrites(before, ScanFaces[f], letters[9 * f .. 9 * f + 9], 9), letters, 9 * (f + 1))
  {
    ScanFacesCoverCube();
    FaceIndicesDistinct(ScanFaces[f]);
    var part := letters[9 * f .. 9 * f + 9];
    var after := FaceWrites(before, ScanFaces[f], part, 9);
    FaceWritesMeaning(before, ScanFaces[f], part, 9);
    forall j | 0 <= j < 9
      ensures after[FaceIndices(ScanFaces[f])[j]] == Some(letters[9 * f + j])
    {
      assert part[j] == letters[9 * f + j];
    }
    FilledExtends(before, after, letters, f);
  }

  /** Scanning the face `ScanFaces[f]` after the faces before it extends what the buffer holds by that face. */
  lemma FilledExtends(before: seq<Option<char>>, after: seq<Option<char>>, letters: seq<char>, f: nat)
    requires |before| == 54 && |after| == 54 && |letters| == 54 && f < 6
    requires Filled(before, letters, 9 * f)
    requires forall j :: 0 <= j < 9 ==> after[FaceIndices(ScanFaces[f])[j]] == Some(letters[9 * f + j])
    requires forall i :: 0 <= i < 54 && i / 9 != ScanFaces[f] ==> after[i] == before[i]
    ensures Filled(after, letters, 9 * (f + 1))
  {
    FaceIndicesDistinct(ScanFaces[f]);
    ScanFacesCoverCube();
    ScanTilesCoverFace();
    forall k | 0 <= k < 9 * (f + 1)
      ensures after[ScanIndex(k)] == Some(letters[k])
    {
      if k < 9 * f {
        FaceletIndexBijective(ScanFaces[k / 9], ScanTiles[k % 9], 0);
        assert ScanIndex(k) / 9 != ScanFaces[f];
      } else {
        ScanIndicesByFace(f, k - 9 * f);
      }
    }
  }

  /** Once the whole scan is stored, every slot of the buffer holds a letter. */
  lemma FilledEverySlot(buf: seq<Option<char>>, letters: seq<char>)
    requires |buf| == 54 && |letters| == 54 && Filled(buf, letters, 54)
    ensures forall i :: 0 <= i < 54 ==> buf[i].Some?
  {
    ScanIndicesPermutation();
    forall i | 0 <= i < 54
      ensures buf[i].Some?
    {
      assert i in ScanIndices();
      var k :| 0 <= k < |ScanIndices()| && ScanIndices()[k] == i;
      assert buf[ScanIndex(k)] == Some(letters[k]);
    }
  }

  /** The joined buffer reads, at the slot of reading `k`, that reading's letter. */
  lemma JoinedLetters(buf: seq<Option<char>>, cube: seq<char>, letters: seq<char>)
    requires |buf| == 54 && |letters| == 54 && Filled(buf, letters, 54)
    requires |cube| == 54 && forall i :: 0 <= i < 54 ==> buf[i] == Some(cube[i])
    ensures forall k :: 0 <= k < 54 ==> ScanIndex(k) < 54 && cube[ScanIndex(k)] == letters[k]
  {
    ScanIndicesPermutation();
    forall k | 0 <= k < 54
      ensures ScanIndex(k) < 54 && cube[ScanIndex(k)] == letters[k]
    {
      assert ScanIndices()[k] == ScanIndex(k);
      assert buf[ScanIndex(k)] == Some(letters[k]);
    }
  }

  /** The first 54 slots of the scan are all of them. */
  lemma ScanIndicesWhole()
    ensures ScanIndices()[..54] == ScanIndices()
  {
  }

  /** The slots of the scan's first `f + 1` faces are those of its first `f` faces, then face `f`'s. */
  lemma ScanIndicesPrefix(f: nat)
    requires f < 6
    ensures ScanFaces[f] < 6
    ensures ScanIndices()[..9 * (f + 1)] == ScanIndices()[..9 * f] + FaceIndices(ScanFaces[f])
  {
    ScanFacesCoverCube();
    var lhs := ScanIndices()[..9 * (f + 1)];
    var rhs := ScanIndices()[..9 * f] + FaceIndices(ScanFaces[f]);
    forall k | 0 <= k < 9 * (f + 1)
      ensures lhs[k] == rhs[k]
    {
      if k >= 9 * f {
        ScanIndicesByFace(f, k - 9 * f);
      }
    }
  }

  /** One four-channel reading for each of the 54 stickers, in scan order. */
  predicate CubeReadings(readings: seq<Color>)
  {
    |readings| == 54 && forall k :: 0 <= k < 54 ==> |readings[k]| == 4
  }

  class CubeBot {
    var flipper: Preset
    var turntable: int
    var trace: seq<Cmd>
    /** colorReference: one slot per face in U, R, F, D, L, B order. */
    var colorReference: seq<Option<Color>>
    /** scanResult: one slot per facelet. */
    const scanResult: array<Option<char>>
    /** The scan-buffer slots scanTile has written, in order. */
    ghost var written: seq<nat>

    ghost predicate Valid()
      reads this`colorReference
    {
      WellFormed(colorReference, SquaredEuclidean) && scanResult.Length == 54
    }

    function Pose(): Pose
      reads this`flipper, this`turntable, this`trace
    {
      Kinematics.Pose(flipper, turntable, trace)
    }

    /**
     * Start-up: the buffer is empty and the references are what the
     * calibration file holds (nothing, or the records before a short read).
     */
    constructor(file: Option<seq<Byte>>, flipper0: Preset, turntable0: int)
      ensures Valid() && fresh(scanResult)
      ensures Pose() == Kinematics.Pose(flipper0, turntable0, [])
      ensures forall f :: 0 <= f < 6 ==> colorReference[f] == Loaded(file, 4, f)
      ensures forall i :: 0 <= i < 54 ==> scanResult[i] == None
      ensures written == []
    {
      flipper := flipper0;
      turntable := turntable0;
      trace := [];
      scanResult := new Option<char>[54](_ => None);
      written := [];
      var refs, ok := LoadReferences(file, 4);
      forall f | 0 <= f < 6
        ensures refs[f].Some? ==> |refs[f].value| == Channels(SquaredEuclidean)
      {
        LoadedWellFormed(file, 4, f);
      }
      colorReference := refs;
    }

    // ----- motors -----

    method RunFlipperTo(q: Preset)
      modifies this`flipper, this`trace
      ensures Pose() == MoveFlipper(old(Pose()), q)
    {
      flipper := q;
      trace := trace + [FlipperTo(q)];
    }

    method RunTurntableFor(degrees: int)
      modifies this`turntable, this`trace
      ensures Pose() == TurnBy(old(Pose()), degrees)
    {
      turntable := turntable + degrees;
      trace := trace + [TurntableBy(degrees)];
    }

    method RunTurntableTo(angle: int)
      modifies this`turntable, this`trace
      ensures Pose() == TurnTo(old(Pose()), angle)
    {
      turntable := angle;
      trace := trace + [TurntableTo(angle)];
    }

    /** Initialize: the flipper home, the turntable to its home angle 0. */
    method Initialize()
      modifies this`flipper, this`turntable, this`trace
      ensures Pose() == TurnTo(MoveFlipper(old(Pose()), Home), 0)
    {
      RunFlipperTo(Home);
      RunTurntableTo(0);
    }

    /** Solved: the flipper home and a turntable move of 0 degrees. */
    method Solved()
      modifies this`flipper, this`turntable, this`trace
      ensures Pose() == TurnBy(MoveFlipper(old(Pose()), Home), 0)
    {
      RunFlipperTo(Home);
      RunTurntableFor(0);
    }

    // ----- primitives -----

    method FlipX(count: int)
      modifies this`flipper, this`trace
      ensures Pose() == AfterFlipX(old(Pose()), count)
    {
      ghost var s0 := Pose();
      var x := 0;
      while x < count
        invariant 0 <= x && (x <= count || x == 0)
        invariant Pose() == AfterFlipX(s0, x)
        decreases count - x
      {
        RunFlipperTo(Hold);
        RunFlipperTo(Flip);
        x := x + 1;
      }
    }

    method InternalRotateY(count: int, direction: Direction)
      modifies this`turntable, this`trace
      ensures Pose() == AfterInternalRotateY(Pi, old(Pose()), count, direction)
    {
      if direction == Regular {
        RunTurntableFor(-90 * count);
      } else {
        RunTurntableFor(90 * count);
      }
    }

    method RotateY(count: int, direction: Direction)
      modifies this`flipper, this`turntable, this`trace
      ensures Pose() == AfterRotateY(Pi, old(Pose()), count, direction)
    {
      var position := FlipperAngle(Pi, flipper);
      if position - 20 < FlipperAngle(Pi, Hold) && position + 20 > FlipperAngle(Pi, Hold) {
        RunFlipperTo(Spin);
      }
      if direction == Regular {
        RunTurntableFor(90 * count);
      } else {
        RunTurntableFor(-90 * count);
      }
    }

    method TurnD(count: int, direction: Direction)
      modifies this`flipper, this`turntable, this`trace
      ensures Pose() == AfterTurnD(Pi, old(Pose()), count, direction)
    {
      RunFlipperTo(Hold);
      InternalRotateY(count, direction);
    }

    // ----- face moves -----

    method UMove(count: int, direction: Direction)
      modifies this`flipper, this`turntable, this`trace
      ensures Pose() == AfterUMove(old(Pose()), count, direction)
    {
      FlipX(2);
      TurnD(count, direction);
      FlipX(2);
    }

    method FMove(count: int, direction: Direction)
      modifies this`flipper, this`turntable, this`trace
      ensures Pose() == AfterFMove(old(Pose()), count, direction)
    {
      RotateY(2, Regular);
      FlipX(1);
      TurnD(count, direction);
      RotateY(2, Regular);
      FlipX(1);
    }

    method BMove(count: int, direction: Direction)
      modifies this`flipper, this`turntable, this`trace
      ensures Pose() == AfterBMove(old(Pose()), count, direction)
    {
      FlipX(1);
      TurnD(count, direction);
      FlipX(3);
    }

    method RMove(count: int, direction: Direction)
      modifies this`flipper, this`turntable, this`trace
      ensures Pose() == AfterRMove(old(Pose()), count, direction)
    {
      RotateY(1, Prime);
      FlipX(1);
      TurnD(count, direction);
      RotateY(2, Regular);
      FlipX(1);
      RotateY(1, Prime);
    }

    method LMove(count: int, direction: Direction)
      modifies this`flipper, this`turntable, this`trace
      ensures Pose() == AfterLMove(old(Pose()), count, direction)
    {
      RotateY(1, Regular);
      FlipX(1);
      TurnD(count, direction);
      RotateY(2, Regular);
      FlipX(1);
      RotateY(1, Regular);
    }

    method DMove(count: int, direction: Direction)
      modifies this`flipper, this`turntable, this`trace
      ensures Pose() == AfterTurnD(Pi, old(Pose()), count, direction)
    {
      TurnD(count, direction);
    }

    /** The call `<face>Move(count, direction)` that solveCube looks up by name. */
    method FaceMove(m: Move)
      modifies this`flipper, this`turntable, this`trace
      ensures Pose() == AfterMove(old(Pose()), m)
    {
      match m.face
      case U => UMove(m.count, m.dir);
      case F => FMove(m.count, m.dir);
      case B => BMove(m.count, m.dir);
      case R => RMove(m.count, m.dir);
      case L => LMove(m.count, m.dir);
      case D => DMove(m.count, m.dir);
    }

    /**
     * solveCube: performs the moves of the answer's pieces in order and
     * stops with an error at the first piece that is empty or names no face;
     * the moves before it have been made.
     */
    method SolveCube(solution: string) returns (err: Option<SolveError>)
      modifies this`flipper, this`turntable, this`trace
      ensures Pose() == AfterMoves(old(Pose()), ParseSolution(solution).0)
      ensures err == ParseSolution(solution).1
    {
      ghost var s0 := Pose();
      var moves := Split(solution);
      ghost var done: seq<Move> := [];
      for i := 0 to |moves|
        invariant ParseFrom(moves[..i], 0) == (done, None)
        invariant Pose() == AfterMoves(s0, done)
      {
        var move := moves[i];
        if move == [] {
          ParseStops(moves, i);
          return Some(EmptyToken(i));
        }
        var face := move[0];
        var count := 1;
        var direction := Regular;
        if |move| == 2 {
          if move[1] == '2' {
            count := 2;
          } else if move[1] == '\'' {
            direction := Prime;
          }
        }
        var target := MoveTable(Lower(face));
        if target.None? {
          ParseStops(moves, i);
          return Some(UnknownFace(i, face));
        }
        var m := Move(target.value, count, direction);
        assert ParseToken(move, i) == Ok(m);
        ParseContinues(moves, i);
        FaceMove(m);
        assert (done + [m])[..|done|] == done;
        done := done + [m];
      }
      assert moves[..|moves|] == moves;
      err := None;
    }

    // ----- classification and scanning -----

    /** getSide, against the current references. */
    method GetSide(rgb: Color) returns (r: Result<int, ClassifyError>)
      requires Valid() && |rgb| == 4
      ensures r == Classify(rgb, colorReference, SquaredEuclidean)
      ensures r.Err? <==> !Calibrated(colorReference)
      ensures r.Ok? ==> FirstNearest(rgb, colorReference, SquaredEuclidean, r.value)
    {
      r := Classifier.GetSide(rgb, colorReference, SquaredEuclidean);
    }

    /**
     * scanTile: read the sensor, classify, and store the face letter at the
     * tile's slot; with a reference missing the classification raises and
     * nothing is stored.
     */
    method ScanTile(face: nat, tile: nat, rgb: Color) returns (err: Option<ClassifyError>)
      requires Valid() && face < 6 && 1 <= tile <= 9 && |rgb| == 4
      modifies this`trace, this`written, scanResult
      ensures trace == old(trace) + [Sense(face, tile)]
      ensures err.None? <==> Calibrated(colorReference)
      ensures err.None? ==>
                && scanResult[..] == old(scanResult[..])[FaceletIndex(face, tile) := Some(Label(colorReference, rgb))]
                && written == old(written) + [FaceletIndex(face, tile)]
      ensures err.Some? ==>
                && err.value == Classify(rgb, colorReference, SquaredEuclidean).error
                && unchanged(scanResult) && written == old(written)
    {
      trace := trace + [Sense(face, tile)];
      var color := GetSide(rgb);
      if color.Err? {
        return Some(color.error);
      }
      ClassifyIsFirstNearest(rgb, colorReference, SquaredEuclidean, color.value);
      FaceletIndexBijective(face, tile, 0);
      scanResult[face * 9 + tile - 1] := Some(FaceLetter(color.value));
      written := written + [FaceletIndex(face, tile)];
      err := None;
    }

    /**
     * One pass of scanFace's loop over the perimeter: the corner or edge
     * preset, the tile's reading, then the turntable on to the next tile.
     */
    method ScanPerimeterStep(face: nat, tileIndex: nat, position: int, rgb: Color) returns (next: int)
      requires Valid() && Calibrated(colorReference) && face < 6 && tileIndex < 8 && |rgb| == 4
      requires position == 45 * tileIndex
      modifies this`flipper, this`turntable, this`trace, this`written, scanResult
      ensures next == position + 45
      ensures Pose() == ScanFaceStep(Pi, old(Pose()), face, tileIndex)
      ensures written == old(written) + [FaceIndices(face)[tileIndex + 1]]
      ensures scanResult[..] == old(scanResult[..])[FaceletIndex(face, ScanTiles[tileIndex + 1]) := Some(Label(colorReference, rgb))]
    {
      if tileIndex % 2 == 1 {
        RunFlipperTo(ScanCorner);
      } else {
        RunFlipperTo(ScanEdge);
      }
      FaceIndexAt(face, tileIndex + 1);
      var e := ScanTile(face, PerimeterTiles[tileIndex], rgb);
      next := position + 45;
      var angle := if next <= 180 then next else next - 360;
      RunTurntableTo(angle);
    }

    /**
     * scanFace: the centre, then the perimeter, each tile's letter stored at
     * its slot (FaceWritesMeaning says what the new buffer holds). With a
     * reference missing, the centre's scanTile raises and the face stops
     * there.
     */
    method ScanFace(face: nat, readings: seq<Color>) returns (err: Option<ClassifyError>)
      requires Valid() && face < 6
      requires |readings| == 9 && forall j :: 0 <= j < 9 ==> |readings[j]| == 4
      modifies this`flipper, this`turntable, this`trace, this`written, scanResult
      ensures err.None? <==> Calibrated(colorReference)
      ensures err.Some? ==>
                && err.value == Classify(readings[0], colorReference, SquaredEuclidean).error
                && Pose() == ReadCentre(old(Pose()), face)
                && unchanged(scanResult) && written == old(written)
      ensures err.None? ==>
                && Pose() == AfterScanFace(Pi, old(Pose()), face)
                && Reads(old(Pose()), Pose(), FaceReadings(face, 9))
                && written == old(written) + FaceIndices(face)
                && scanResult[..] == FaceWrites(old(scanResult[..]), face, Labels(colorReference, readings), 9)
    {
      ghost var s0 := Pose();
      ghost var b0 := scanResult[..];
      ghost var w0 := written;
      ghost var ix := FaceIndices(face);
      RunFlipperTo(ScanCenter);
      FaceIndexAt(face, 0);
      err := ScanTile(face, 5, readings[0]);
      if err.Some? {
        return;
      }
      ghost var lab := Labels(colorReference, readings);
      LabelsAt(colorReference, readings, 0);
      var position := 0;
      RunTurntableTo(position);
      assert ix[..1] == [ix[0]];
      for tileIndex := 0 to 8
        invariant Pose() == ScanFaceSteps(Pi, s0, face, tileIndex)
        invariant position == 45 * tileIndex
        invariant written == w0 + ix[..tileIndex + 1]
        invariant scanResult[..] == FaceWrites(b0, face, lab, tileIndex + 1)
      {
        position := ScanPerimeterStep(face, tileIndex, position, readings[tileIndex + 1]);
        LabelsAt(colorReference, readings, tileIndex + 1);
        PrefixSnoc(w0, ix, tileIndex + 1);
      }
      assert ix[..9] == ix;
      ScanFaceReadings(Pi, s0, face);
    }

    /** The flips and turns scanCube makes before reading its `f`-th face. */
    method TurnToScanFace(f: nat)
      modifies this`flipper, this`turntable, this`trace
      ensures Pose() == ScanCubeLead(Pi, old(Pose()), f)
      ensures Reads(old(Pose()), Pose(), [])
    {
      ScanCubeLeadReads(Pi, Pose(), f);
      if f == 0 {
        RunFlipperTo(Hold);
        FlipX(1);
      } else if f <= 2 {
        FlipX(1);
      } else if f == 3 {
        FlipX(1);
        RotateY(2, Regular);
      } else if f == 4 {
        RotateY(1, Prime);
        FlipX(1);
        RotateY(1, Regular);
      } else {
        FlipX(2);
        RotateY(2, Regular);
      }
    }

    /**
     * How far scanCube has got after `n` faces: the references and readings
     * it needs are in place, the buffer holds the letters of the first `9n`
     * readings at their slots, and those slots were written in scan order.
     */
    ghost predicate ScanProgress(readings: seq<Color>, w0: seq<nat>, n: nat)
      reads this`colorReference, this`written, scanResult
    {
      && Valid() && Calibrated(colorReference) && CubeReadings(readings) && n <= 6
      && Filled(scanResult[..], Labels(colorReference, readings), 9 * n)
      && written == w0 + ScanIndices()[..9 * n]
    }

    /** One face of scanCube's scan: scanFace on face `ScanFaces[f]` with the `f`-th nine readings. */
    method ScanCubeFace(f: nat, readings: seq<Color>, ghost w0: seq<nat>)
      requires f < 6 && ScanProgress(readings, w0, f)
      modifies this`flipper, this`turntable, this`trace, this`written, scanResult
      ensures Pose() == AfterScanFace(Pi, old(Pose()), ScanFaces[f])
      ensures colorReference == old(colorReference)
      ensures ScanProgress(readings, w0, f + 1)
    {
      ScanIndicesPrefix(f);
      ghost var b := scanResult[..];
      var e := ScanFace(ScanFaces[f], readings[9 * f .. 9 * f + 9]);
      ReadingsFill(b, scanResult[..], colorReference, readings, f);
    }

    /** scanCube's `f`-th stage: the cube turned so that face `ScanFaces[f]` is on top, then that face scanned. */
    method ScanCubeStage(f: nat, readings: seq<Color>, ghost s0: Pose, ghost w0: seq<nat>)
      requires f < 6 && ScanProgress(readings, w0, f) && Pose() == ScanCubeStages(Pi, s0, f)
      modifies this`flipper, this`turntable, this`trace, this`written, scanResult
      ensures colorReference == old(colorReference)
      ensures ScanProgress(readings, w0, f + 1) && Pose() == ScanCubeStages(Pi, s0, f + 1)
      ensures Reads(s0, Pose(), ScanReadings(9 * (f + 1)))
    {
      TurnToScanFace(f);
      ScanCubeFace(f, readings, w0);
      ScanCubeStagesReads(Pi, s0, f + 1);
    }

    /** scanCube's six stages, from the first face's turn to the sixth face's scan. */
    method ScanAllFaces(readings: seq<Color>)
      requires Valid() && Calibrated(colorReference) && CubeReadings(readings)
      modifies this`flipper, this`turntable, this`trace, this`written, scanResult
      ensures Pose() == ScanCubeStages(Pi, old(Pose()), 6)
      ensures Reads(old(Pose()), Pose(), ScanReadings(54))
      ensures colorReference == old(colorReference)
      ensures ScanProgress(readings, old(written), 6)
    {
      ghost var s0 := Pose();
      ghost var w0 := written;
      assert ScanIndices()[..0] == [] && w0 + [] == w0;
      assert ScanProgress(readings, w0, 0);
      ScanCubeStage(0, readings, s0, w0);
      ScanCubeStage(1, readings, s0, w0);
      ScanCubeStage(2, readings, s0, w0);
      ScanCubeStage(3, readings, s0, w0);
      ScanCubeStage(4, readings, s0, w0);
      ScanCubeStage(5, readings, s0, w0);
    }

    /** `''.join(scanResult)`: the buffer's letters in slot order, once every slot holds one. */
    method Joined() returns (cube: string)
      requires scanResult.Length == 54 && forall i :: 0 <= i < 54 ==> scanResult[i].Some?
      ensures |cube| == 54 && forall i :: 0 <= i < 54 ==> scanResult[i] == Some(cube[i])
    {
      cube := [];
      for i := 0 to 54
        invariant |cube| == i
        invariant forall j :: 0 <= j < i ==> scanResult[j] == Some(cube[j])
      {
        cube := cube + [scanResult[i].value];
      }
    }

    /** The last motions of scanCube, after the sixth face: the cube turned back towards where it started. */
    method TurnBackAfterScan()
      modifies this`flipper, this`turntable, this`trace
      ensures Pose() == ScanCubeTail(Pi, old(Pose()))
      ensures Reads(old(Pose()), Pose(), [])
    {
      ScanCubeTailReads(Pi, Pose());
      RotateY(2, Regular);
      FlipX(1);
      RotateY(1, Prime);
    }

    /**
     * scanCube: the six faces in scan order, each brought over the sensor and
     * scanned, then the cube turned back; the answer is the buffer joined,
     * and slot `ScanIndex(k)` holds the letter of the `k`-th reading, which
     * is the reading of that facelet. With a reference missing, the first
     * face's centre raises and the scan stops there.
     */
    method ScanCube(readings: seq<Color>) returns (cube: string, err: Option<ClassifyError>)
      requires Valid() && CubeReadings(readings)
      modifies this`flipper, this`turntable, this`trace, this`written, scanResult
      ensures err.None? <==> Calibrated(colorReference)
      ensures err.Some? ==>
                && err.value == Classify(readings[0], colorReference, SquaredEuclidean).error
                && Pose() == ReadCentre(ScanCubeLead(Pi, old(Pose()), 0), ScanFaces[0])
                && unchanged(scanResult) && written == old(written)
      ensures err.None? ==>
                && Pose() == AfterScanCube(Pi, old(Pose()))
                && Reads(old(Pose()), Pose(), ScanReadings(54))
                && (forall k :: 0 <= k < 54 ==>
                      FaceletIndex(ScanReadings(54)[k].0, ScanReadings(54)[k].1) == ScanIndex(k))
                && written == old(written) + ScanIndices()
                && |cube| == 54
                && (forall k :: 0 <= k < 54 ==> cube[ScanIndex(k)] == Labels(colorReference, readings)[k])
                && (forall i :: 0 <= i < 54 ==> scanResult[i] == Some(cube[i]))
    {
      if !Calibrated(colorReference) {
        TurnToScanFace(0);
        err := ScanFace(ScanFaces[0], readings[..9]);
        cube := [];
        return;
      }
      ghost var s0 := Pose();
      ghost var w0 := written;
      ghost var lab := Labels(colorReference, readings);
      ScanAllFaces(readings);
      ScanIndicesWhole();
      assert written == w0 + ScanIndices();
      FilledEverySlot(scanResult[..], lab);
      TurnBackAfterScan();
      cube := Joined();
      JoinedLetters(scanResult[..], cube, lab);
      ScanCubeReads(Pi, s0);
      err := None;
    }

    // ----- calibration -----

    /** calibrateCenter: the centre preset, one reading, stored as the face's reference. */
    method CalibrateCenter(face: nat, rgb: Color)
      requires |colorReference| == 6 && face < 6
      modifies this`flipper, this`trace, this`colorReference
      ensures Pose() == ReadCentre(old(Pose()), face)
      ensures colorReference == old(colorReference)[face := Some(rgb)]
    {
      RunFlipperTo(ScanCenter);
      trace := trace + [Sense(face, 5)];
      colorReference := colorReference[face := Some(rgb)];
    }

    /**
     * calibrate's `k`-th step: its flips and turns, then calibrateCenter on
     * the `k`-th face of its order with the `k`-th reading.
     */
    method CalibrateStep(k: nat, readings: seq<Color>, ghost s0: Pose, ghost r0: seq<Option<Color>>)
      requires k < 6 && |readings| == 6 && |r0| == 6
      requires Pose() == CalibrateStages(Pi, s0, k) && colorReference == RefsAfter(r0, readings, k)
      modifies this`flipper, this`turntable, this`trace, this`colorReference
      ensures Pose() == CalibrateStages(Pi, s0, k + 1) && colorReference == RefsAfter(r0, readings, k + 1)
    {
      if k == 0 {
        RunFlipperTo(Hold);
        FlipX(1);
      } else if k <= 3 {
        FlipX(1);
      } else if k == 4 {
        RotateY(1, Regular);
        FlipX(1);
      } else {
        FlipX(2);
      }
      CalibrateCenter(CalibrationOrder[k], readings[k]);
    }

    /** The motions and readings of calibrate, before the references are saved. */
    method CalibrateCenters(readings: seq<Color>)
      requires Valid() && |readings| == 6 && forall k :: 0 <= k < 6 ==> |readings[k]| == 4
      modifies this`flipper, this`turntable, this`trace, this`colorReference
      ensures Valid() && Calibrated(colorReference)
      ensures Pose() == AfterCalibrate(Pi, old(Pose()))
      ensures Reads(old(Pose()), Pose(), CalibrationReadings(6))
      ensures colorReference == [Some(readings[0]), Some(readings[4]), Some(readings[1]),
                                 Some(readings[2]), Some(readings[5]), Some(readings[3])]
    {
      CalibrateReads(Pi, Pose());
      ghost var r0 := colorReference;
      CalibrateAllSteps(readings);
      CalibrationFillsAll(r0, readings, SquaredEuclidean);
      ghost var refs := colorReference;
      TurnBackAfterCalibrate();
      assert colorReference == refs;
    }

    /** calibrate's six steps, from the first flip to the sixth centre's reading. */
    method CalibrateAllSteps(readings: seq<Color>)
      requires |colorReference| == 6 && |readings| == 6
      modifies this`flipper, this`turntable, this`trace, this`colorReference
      ensures Pose() == CalibrateStages(Pi, old(Pose()), 6)
      ensures colorReference == RefsAfter(old(colorReference), readings, 6)
    {
      ghost var s0 := Pose();
      ghost var r0 := colorReference;
      CalibrateStep(0, readings, s0, r0);
      CalibrateStep(1, readings, s0, r0);
      CalibrateStep(2, readings, s0, r0);
      CalibrateStep(3, readings, s0, r0);
      CalibrateStep(4, readings, s0, r0);
      CalibrateStep(5, readings, s0, r0);
    }

    /** The last motions of calibrate, after the sixth centre. */
    method TurnBackAfterCalibrate()
      modifies this`flipper, this`turntable, this`trace
      ensures Pose() == CalibrateTail(Pi, old(Pose()))
      ensures Reads(old(Pose()), Pose(), [])
    {
      CalibrateTailReads(Pi, Pose());
      RotateY(1, Prime);
      FlipX(1);
      RotateY(1, Prime);
    }

    /**
     * calibrate: reads every face's centre once, in the order U, F, D, B, R,
     * L, so that all six references are set, and then saves them as six `4I`
     * records, which load back as the same references; a reading that does
     * not fit an unsigned 32-bit word stops the save at that face.
     */
    method Calibrate(readings: seq<Color>) returns (data: seq<Byte>, err: Option<SaveError>)
      requires Valid() && |readings| == 6 && forall k :: 0 <= k < 6 ==> |readings[k]| == 4
      modifies this`flipper, this`turntable, this`trace, this`colorReference
      ensures Valid() && Calibrated(colorReference)
      ensures Pose() == AfterCalibrate(Pi, old(Pose()))
      ensures Reads(old(Pose()), Pose(), CalibrationReadings(6))
      ensures forall k :: 0 <= k < 6 ==> CalibrationReadings(6)[k] == (CalibrationOrder[k], 5, ScanCenter)
      ensures colorReference == [Some(readings[0]), Some(readings[4]), Some(readings[1]),
                                 Some(readings[2]), Some(readings[5]), Some(readings[3])]
      ensures err.None? <==> forall f :: 0 <= f < 6 ==> WordColor(colorReference[f].value)
      ensures err.None? ==> forall f :: 0 <= f < 6 ==> Loaded(Some(data), 4, f) == colorReference[f]
      ensures err.Some? ==>
                && err.value.BadRecord? && err.value.face < 6
                && !WordColor(colorReference[err.value.face].value)
                && (forall i :: 0 <= i < err.value.face ==> WordColor(colorReference[i].value))
                && data == PackAll(colorReference[..err.value.face], 4)
    {
      CalibrateCenters(readings);
      data, err := SaveReferences(colorReference, 4);
      if err.None? {
        forall f | 0 <= f < 6
          ensures Loaded(Some(data), 4, f) == colorReference[f]
        {
          SaveLoadRoundTrip(colorReference, 4, f);
        }
      }
    }
  }
}
