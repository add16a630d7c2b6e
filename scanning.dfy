/**
 * The scan: which faces scanCube visits and in what order, which tiles
 * scanFace reads and with which flipper preset, how it steps the turntable,
 * and where scanTile stores each result. Tiles are numbered 1..9 row by row
 * on each face, 5 the centre; facelet `face * 9 + tile - 1` is the slot of
 * the 54-character cube string.
 */
module Scanning {
  import opened Wrappers
  import opened Cube
  import opened Kinematics
  import opened Classifier

  /** scanCube's (and calibrate's) face order: U, F, D, B, R, L. */
  const ScanFaces: seq<nat> := [0, 2, 3, 5, 1, 4]

  /** The perimeter scanFace walks after the centre. */
  const PerimeterTiles: seq<nat> := [8, 9, 6, 3, 2, 1, 4, 7]

  /** Every tile scanFace reads, in order: the centre, then the perimeter. */
  const ScanTiles: seq<nat> := [5] + PerimeterTiles

  /** The flipper preset for perimeter step `k`: odd steps are corners, even steps edges. */
  function PerimeterPreset(k: nat): Preset
  {
    if k % 2 == 1 then ScanCorner else ScanEdge
  }

  /** The preset that puts the sensor over a tile of the given kind. */
  function TilePreset(tile: nat): Preset
    requires 1 <= tile <= 9
  {
    if IsCentre(tile) then ScanCenter else if IsCorner(tile) then ScanCorner else ScanEdge
  }

  /** The perimeter visits the eight outer tiles, each once. */
  lemma PerimeterCoversOuterTiles()
    ensures |PerimeterTiles| == 8 && |ScanTiles| == 9
    ensures forall k :: 0 <= k < 8 ==> 1 <= PerimeterTiles[k] <= 9 && !IsCentre(PerimeterTiles[k])
    ensures forall t :: 1 <= t <= 9 && !IsCentre(t) ==> t in PerimeterTiles
    ensures forall j, k :: 0 <= j < k < 8 ==> PerimeterTiles[j] != PerimeterTiles[k]
  {
    forall t | 1 <= t <= 9 && !IsCentre(t)
      ensures t in PerimeterTiles
    {
      assert t != 5;
    }
  }

  /**
   * The parity rule of scanFace's loop picks the corner preset exactly at the
   * corners and the edge preset exactly at the edges.
   */
  lemma PerimeterPresets()
    ensures forall k :: 0 <= k < 8 ==> (k % 2 == 1 <==> IsCorner(PerimeterTiles[k]))
    ensures forall k :: 0 <= k < 8 ==> (k % 2 == 0 <==> IsEdge(PerimeterTiles[k]))
    ensures forall k :: 0 <= k < 8 ==> PerimeterPreset(k) == TilePreset(PerimeterTiles[k])
  {
    forall k | 0 <= k < 8
      ensures (k % 2 == 1 <==> IsCorner(PerimeterTiles[k])) && (k % 2 == 0 <==> IsEdge(PerimeterTiles[k]))
      ensures PerimeterPreset(k) == TilePreset(PerimeterTiles[k])
    {
      if k == 0 { } else if k == 1 { } else if k == 2 { } else if k == 3 { }
      else if k == 4 { } else if k == 5 { } else if k == 6 { } else { assert k == 7; }
    }
  }

  /** Each 45 degree step moves the sensor to a tile sharing a side with the last one, all the way round. */
  lemma PerimeterWalk(k: nat)
    requires k < 8
    ensures Adjacent(PerimeterTiles[k], PerimeterTiles[(k + 1) % 8])
  {
    if k == 0 { } else if k == 1 { } else if k == 2 { } else if k == 3 { }
    else if k == 4 { } else if k == 5 { } else if k == 6 { } else { assert k == 7; }
  }

  /** The nine tiles of a face, each once, the centre first. */
  lemma ScanTilesCoverFace()
    ensures ScanTiles[0] == 5 && IsCentre(5)
    ensures forall j :: 0 <= j < 9 ==> 1 <= ScanTiles[j] <= 9
    ensures forall j, k :: 0 <= j < k < 9 ==> ScanTiles[j] != ScanTiles[k]
    ensures forall t :: 1 <= t <= 9 ==> t in ScanTiles
  {
    PerimeterCoversOuterTiles();
    assert forall k :: 0 <= k < 8 ==> ScanTiles[k + 1] == PerimeterTiles[k];
    forall t | 1 <= t <= 9
      ensures t in ScanTiles
    {
      if t != 5 {
        assert t in PerimeterTiles;
        var k :| 0 <= k < 8 && PerimeterTiles[k] == t;
        assert ScanTiles[k + 1] == t;
      }
    }
  }

  /** The six faces, each once. */
  lemma ScanFacesCoverCube()
    ensures |ScanFaces| == 6
    ensures forall f :: 0 <= f < 6 ==> ScanFaces[f] < 6
    ensures forall j, k :: 0 <= j < k < 6 ==> ScanFaces[j] != ScanFaces[k]
    ensures forall f :: 0 <= f < 6 ==> f in ScanFaces
  {
  }

  // ----- where the results go -----

  /** The slot of the `k`-th reading of a whole scan (9 per face, faces in scan order). */
  function ScanIndex(k: nat): nat
    requires k < 54
  {
    FaceletIndex(ScanFaces[k / 9], ScanTiles[k % 9])
  }

  function ScanIndices(): (ix: seq<nat>)
    ensures |ix| == 54
  {
    seq(54, k requires 0 <= k < 54 => ScanIndex(k))
  }

  /** The slots of one face's scan, in reading order. */
  function FaceIndices(face: nat): (ix: seq<nat>)
    requires face < 6
    ensures |ix| == 9
  {
    seq(9, j requires 0 <= j < 9 => FaceletIndex(face, ScanTiles[j]))
  }

  /** One face's scan writes nine different slots of that face. */
  lemma FaceIndicesDistinct(face: nat)
    requires face < 6
    ensures forall j :: 0 <= j < 9 ==> FaceIndices(face)[j] < 54 && FaceIndices(face)[j] / 9 == face
    ensures forall j, k :: 0 <= j < k < 9 ==> FaceIndices(face)[j] != FaceIndices(face)[k]
  {
    ScanTilesCoverFace();
    forall j | 0 <= j < 9
      ensures FaceIndices(face)[j] < 54 && FaceIndices(face)[j] / 9 == face
    {
      FaceletIndexBijective(face, ScanTiles[j], 0);
    }
    forall j, k | 0 <= j < k < 9
      ensures FaceIndices(face)[j] != FaceIndices(face)[k]
    {
      if FaceIndices(face)[j] == FaceIndices(face)[k] {
        FaceletIndexInjective(face, ScanTiles[j], face, ScanTiles[k]);
      }
    }
  }

  /** The `n`-th slot of a face's scan: the slot of its `n`-th tile, on that face, new to the scan. */
  lemma FaceIndexAt(face: nat, n: nat)
    requires face < 6 && n < 9
    ensures 1 <= ScanTiles[n] <= 9 && (n >= 1 ==> ScanTiles[n] == PerimeterTiles[n - 1])
    ensures FaceIndices(face)[n] == FaceletIndex(face, ScanTiles[n]) < 54
    ensures FaceIndices(face)[n] / 9 == face
    ensures forall j :: 0 <= j < n ==> FaceIndices(face)[j] != FaceIndices(face)[n]
  {
    ScanTilesCoverFace();
    FaceIndicesDistinct(face);
    FaceletIndexBijective(face, ScanTiles[n], 0);
  }

  /**
   * A whole scan writes every one of the 54 slots exactly once: its slots
   * are all in range, pairwise different, and cover 0..53.
   */
  lemma ScanIndicesPermutation()
    ensures forall k :: 0 <= k < 54 ==> ScanIndices()[k] < 54
    ensures forall j, k :: 0 <= j < k < 54 ==> ScanIndices()[j] != ScanIndices()[k]
    ensures forall i :: 0 <= i < 54 ==> i in ScanIndices()
  {
    ScanTilesCoverFace();
    ScanFacesCoverCube();
    var ix := ScanIndices();
    forall k | 0 <= k < 54
      ensures ix[k] < 54
    {
      FaceletIndexBijective(ScanFaces[k / 9], ScanTiles[k % 9], 0);
    }
    forall j, k | 0 <= j < k < 54
      ensures ix[j] != ix[k]
    {
      FaceletIndexBijective(ScanFaces[j / 9], ScanTiles[j % 9], 0);
      FaceletIndexBijective(ScanFaces[k / 9], ScanTiles[k % 9], 0);
      if j / 9 == k / 9 {
        assert j % 9 != k % 9;
      }
    }
    forall i | 0 <= i < 54
      ensures i in ix
    {
      FaceletIndexBijective(0, 1, i);
      var face := i / 9;
      var tile := i % 9 + 1;
      assert face in ScanFaces && tile in ScanTiles;
      var a :| 0 <= a < 6 && ScanFaces[a] == face;
      var b :| 0 <= b < 9 && ScanTiles[b] == tile;
      var k := a * 9 + b;
      assert k / 9 == a && k % 9 == b;
      assert ix[k] == i;
    }
  }

  /** The scan's readings for face `ScanFaces[f]` fill exactly that face's nine slots. */
  lemma ScanIndicesByFace(f: nat, j: nat)
    requires f < 6 && j < 9
    ensures ScanIndices()[f * 9 + j] == FaceIndices(ScanFaces[f])[j]
  {
    var k := f * 9 + j;
    assert k / 9 == f && k % 9 == j;
  }

  // ----- the turntable during a face -----

  /** The Pi copy's commanded angle for a running `position`: itself up to 180, else one turn less. */
  function Angle(position: int): int
  {
    if position <= 180 then position else position - 360
  }

  /**
   * The eight positions 45, 90, ..., 360 give angles in (-180, 180] that
   * agree with the position modulo a full turn, and the last is 0: the
   * turntable ends where the face's scan started it.
   */
  lemma AngleRange(k: nat)
    requires 1 <= k <= 8
    ensures -180 < Angle(45 * k) <= 180
    ensures (Angle(45 * k) - 45 * k) % 360 == 0
    ensures k == 8 ==> Angle(45 * k) == 0
  {
  }

  // ----- the motion of one face -----

  /**
   * The centre preset, then the sensor read: calibrateCenter's motion, and
   * scanFace's up to and including the centre's scanTile.
   */
  function ReadCentre(s: Pose, face: nat): Pose
  {
    Sensed(MoveFlipper(s, ScanCenter), face, 5)
  }

  /** scanFace up to its loop: the centre read, and on the Pi `run_to_position(0)`. */
  function ScanFaceStart(p: Platform, s: Pose, face: nat): Pose
  {
    var t := ReadCentre(s, face);
    if p == Pi then TurnTo(t, 0) else t
  }

  /** One pass of scanFace's loop: the preset, the reading, then the turntable step. */
  function ScanFaceStep(p: Platform, s: Pose, face: nat, k: nat): Pose
    requires k < 8
  {
    var t := Sensed(MoveFlipper(s, PerimeterPreset(k)), face, PerimeterTiles[k]);
    if p == Pi then TurnTo(t, Angle(45 * (k + 1))) else TurnBy(t, 45)
  }

  /** scanFace after `n` passes of its loop. */
  function ScanFaceSteps(p: Platform, s: Pose, face: nat, n: nat): Pose
    requires n <= 8
  {
    if n == 0 then ScanFaceStart(p, s, face) else ScanFaceStep(p, ScanFaceSteps(p, s, face, n - 1), face, n - 1)
  }

  function AfterScanFace(p: Platform, s: Pose, face: nat): Pose
  {
    ScanFaceSteps(p, s, face, 8)
  }

  // ----- what a stretch of commands says -----

  /** The readings of a stretch of commands: each sensor read with the flipper preset it was taken at. */
  function Readings(q: Preset, cmds: seq<Cmd>): seq<(nat, nat, Preset)>
    decreases |cmds|
  {
    if cmds == [] then []
    else
      match cmds[0]
      case FlipperTo(q') => Readings(q', cmds[1..])
      case Sense(face, tile) => [(face, tile, q)] + Readings(q, cmds[1..])
      case _ => Readings(q, cmds[1..])
  }

  function LastPreset(q: Preset, cmds: seq<Cmd>): Preset
    decreases |cmds|
  {
    if cmds == [] then q
    else LastPreset(if cmds[0].FlipperTo? then cmds[0].preset else q, cmds[1..])
  }

  /**
   * How many turntable moves of a stretch of commands are made with the
   * flipper at Hold, gripping the upper layers: each of those twists the
   * bottom layer instead of turning the whole cube.
   */
  function LayerTurns(q: Preset, cmds: seq<Cmd>): nat
    decreases |cmds|
  {
    if cmds == [] then 0
    else
      var here := if q == Hold && (cmds[0].TurntableBy? || cmds[0].TurntableTo?) then 1 else 0;
      here + LayerTurns(if cmds[0].FlipperTo? then cmds[0].preset else q, cmds[1..])
  }

  lemma {:induction false} ReadingsAppend(q: Preset, a: seq<Cmd>, b: seq<Cmd>)
    ensures Readings(q, a + b) == Readings(q, a) + Readings(LastPreset(q, a), b)
    ensures LastPreset(q, a + b) == LastPreset(LastPreset(q, a), b)
    ensures LayerTurns(q, a + b) == LayerTurns(q, a) + LayerTurns(LastPreset(q, a), b)
    decreases |a|
  {
    if a == [] {
      assert a + b == b;
    } else {
      assert (a + b)[0] == a[0] && (a + b)[1..] == a[1..] + b;
      var q' := if a[0].FlipperTo? then a[0].preset else q;
      ReadingsAppend(q', a[1..], b);
    }
  }

  /**
   * From pose `s` to the later pose `t` of the same run, the robot takes the
   * readings `r` (each with the preset it was taken at), leaves the flipper
   * where `t` says, and never turns the turntable while the flipper is at
   * Hold, so it turns no layer of the cube.
   */
  predicate Reads(s: Pose, t: Pose, r: seq<(nat, nat, Preset)>)
  {
    && s.trace <= t.trace
    && Readings(s.flipper, Increment(s, t)) == r
    && LastPreset(s.flipper, Increment(s, t)) == t.flipper
    && LayerTurns(s.flipper, Increment(s, t)) == 0
  }

  /** Two stretches of one run, one after the other, take the first's readings and then the second's. */
  lemma ReadsThen(s0: Pose, s1: Pose, s2: Pose, r1: seq<(nat, nat, Preset)>, r2: seq<(nat, nat, Preset)>)
    requires Reads(s0, s1, r1) && Reads(s1, s2, r2)
    ensures Reads(s0, s2, r1 + r2)
  {
    assert Increment(s0, s2) == Increment(s0, s1) + Increment(s1, s2);
    ReadingsAppend(s0.flipper, Increment(s0, s1), Increment(s1, s2));
  }

  /**
   * One command: a flipper move reads nothing and leaves the flipper at its
   * preset, a turntable move with the flipper off Hold reads nothing, and a
   * sensor read is one reading at the current preset.
   */
  lemma ReadsOne(s: Pose, t: Pose, c: Cmd)
    requires t.trace == s.trace + [c]
    requires t.flipper == if c.FlipperTo? then c.preset else s.flipper
    requires (c.TurntableBy? || c.TurntableTo?) ==> s.flipper != Hold
    ensures Reads(s, t, if c.Sense? then [(c.face, c.tile, s.flipper)] else [])
  {
    assert Increment(s, t) == [c];
    assert [c][1..] == [];
  }

  /** flipX reads nothing, turns no layer and leaves the flipper where its last move put it. */
  lemma {:induction false} FlipXReads(s: Pose, count: int)
    ensures Reads(s, AfterFlipX(s, count), [])
    decreases count
  {
    if count <= 0 {
      assert Increment(s, s) == [];
    } else {
      var prev := AfterFlipX(s, count - 1);
      var held := MoveFlipper(prev, Hold);
      FlipXReads(s, count - 1);
      ReadsOne(prev, held, FlipperTo(Hold));
      ReadsOne(held, AfterFlipX(s, count), FlipperTo(Flip));
      ReadsThen(s, prev, held, [], []);
      ReadsThen(s, held, AfterFlipX(s, count), [], []);
    }
  }

  /** rotateY reads nothing and turns no layer: the turntable only moves with the flipper off Hold. */
  lemma RotateYReads(p: Platform, s: Pose, count: int, dir: Direction)
    ensures Reads(s, AfterRotateY(p, s, count, dir), [])
  {
    NearHoldIsHold(s.flipper);
    var t := AfterRotateY(p, s, count, dir);
    var d := RotateYDelta(p, count, dir);
    if p == Spike || s.flipper == Hold {
      var lifted := MoveFlipper(s, Spin);
      ReadsOne(s, lifted, FlipperTo(Spin));
      ReadsOne(lifted, t, TurntableBy(d));
      ReadsThen(s, lifted, t, [], []);
    } else {
      ReadsOne(s, t, TurntableBy(d));
    }
  }

  /** The readings the scan of one face takes, in order, each with the preset for its tile. */
  function FaceReadings(face: nat, n: nat): seq<(nat, nat, Preset)>
    requires n <= 9
  {
    seq(n, j requires 0 <= j < n => (face, ScanTiles[j], TilePreset(ScanTiles[j])))
  }

  /** A centre read is one reading, of tile 5, at the centre preset. */
  lemma ReadCentreReads(s: Pose, face: nat)
    ensures Reads(s, ReadCentre(s, face), [(face, 5, ScanCenter)])
  {
    var raised := MoveFlipper(s, ScanCenter);
    ReadsOne(s, raised, FlipperTo(ScanCenter));
    ReadsOne(raised, ReadCentre(s, face), Sense(face, 5));
    ReadsThen(s, raised, ReadCentre(s, face), [], [(face, 5, ScanCenter)]);
  }

  /** The start of scanFace reads the centre with the sensor at the centre preset. */
  lemma ScanFaceStartReadings(p: Platform, s: Pose, face: nat)
    ensures Reads(s, ScanFaceStart(p, s, face), FaceReadings(face, 1))
    ensures ScanFaceStart(p, s, face).flipper == ScanCenter
  {
    var t := ReadCentre(s, face);
    ReadCentreReads(s, face);
    assert FaceReadings(face, 1) == [(face, 5, ScanCenter)];
    if p == Pi {
      ReadsOne(t, TurnTo(t, 0), TurntableTo(0));
      ReadsThen(s, t, TurnTo(t, 0), FaceReadings(face, 1), []);
    }
  }

  /** One pass of the loop reads perimeter tile `k` with the sensor at that pass's preset. */
  lemma ScanFaceStepReadings(p: Platform, s: Pose, face: nat, k: nat)
    requires k < 8
    ensures Reads(s, ScanFaceStep(p, s, face, k), [(face, PerimeterTiles[k], PerimeterPreset(k))])
  {
    var q := PerimeterPreset(k);
    var placed := MoveFlipper(s, q);
    var read := Sensed(placed, face, PerimeterTiles[k]);
    var t := ScanFaceStep(p, s, face, k);
    ReadsOne(s, placed, FlipperTo(q));
    ReadsOne(placed, read, Sense(face, PerimeterTiles[k]));
    ReadsThen(s, placed, read, [], [(face, PerimeterTiles[k], q)]);
    ReadsOne(read, t, t.trace[|read.trace|]);
    ReadsThen(s, read, t, [(face, PerimeterTiles[k], q)], []);
  }

  lemma FaceReadingsSnoc(face: nat, n: nat)
    requires n < 9
    ensures FaceReadings(face, n + 1) == FaceReadings(face, n) + [(face, ScanTiles[n], TilePreset(ScanTiles[n]))]
  {
    ScanTilesCoverFace();
  }

  /**
   * After `n` passes of the loop, scanFace has read the centre and the first
   * `n` perimeter tiles of `face`, in that order, each with the sensor at the
   * preset for the kind of tile it is, and has turned no layer.
   */
  lemma {:induction false} ScanFaceStepsReadings(p: Platform, s: Pose, face: nat, n: nat)
    requires n <= 8
    ensures Reads(s, ScanFaceSteps(p, s, face, n), FaceReadings(face, n + 1))
    decreases n
  {
    if n == 0 {
      ScanFaceStartReadings(p, s, face);
    } else {
      var prev := ScanFaceSteps(p, s, face, n - 1);
      ScanFaceStepsReadings(p, s, face, n - 1);
      ScanFaceStepReadings(p, prev, face, n - 1);
      PerimeterPresets();
      assert ScanTiles[n] == PerimeterTiles[n - 1];
      FaceReadingsSnoc(face, n);
      ReadsThen(s, prev, ScanFaceSteps(p, s, face, n), FaceReadings(face, n), [(face, PerimeterTiles[n - 1], PerimeterPreset(n - 1))]);
    }
  }

  /** scanFace reads all nine tiles of its face, centre first, each with the sensor placed for that kind of tile. */
  lemma ScanFaceReadings(p: Platform, s: Pose, face: nat)
    ensures Reads(s, AfterScanFace(p, s, face), FaceReadings(face, 9))
    ensures forall j :: 0 <= j < 9 ==> FaceReadings(face, 9)[j].1 == ScanTiles[j]
  {
    ScanFaceStepsReadings(p, s, face, 8);
  }

  /** On the Pi the turntable ends each face at angle 0; on SPIKE it has turned one full turn further. */
  lemma {:induction false} ScanFaceTurntable(p: Platform, s: Pose, face: nat, n: nat)
    requires n <= 8
    ensures p == Pi ==> ScanFaceSteps(p, s, face, n).turntable == Angle(45 * n)
    ensures p == Spike ==> ScanFaceSteps(p, s, face, n).turntable == s.turntable + 45 * n
    ensures n == 8 ==> AfterScanFace(p, s, face).turntable == if p == Pi then 0 else s.turntable + 360
    decreases n
  {
    if n > 0 {
      ScanFaceTurntable(p, s, face, n - 1);
    }
  }

  // ----- the whole scan and the calibration run -----

  /**
   * The turns scanCube makes before reading its `f`-th face (U, F, D, B, R,
   * L): the flipper to Hold and a flip before U, a flip before F and D, then
   * for B, R and L the copies differ: the Pi copy adds half turns of the
   * whole cube before B and L and a quarter turn each way around the flip
   * before R, where SPIKE flips once, turns a quarter and flips, then flips
   * twice.
   */
  function ScanCubeLead(p: Platform, s: Pose, f: nat): Pose
  {
    if f == 0 then AfterFlipX(MoveFlipper(s, Hold), 1)
    else if f <= 2 then AfterFlipX(s, 1)
    else
      match p
      case Pi =>
        if f == 3 then AfterRotateY(p, AfterFlipX(s, 1), 2, Regular)
        else if f == 4 then AfterRotateY(p, AfterFlipX(AfterRotateY(p, s, 1, Prime), 1), 1, Regular)
        else AfterRotateY(p, AfterFlipX(s, 2), 2, Regular)
      case Spike =>
        if f == 3 then AfterFlipX(s, 1)
        else if f == 4 then AfterFlipX(AfterRotateY(p, s, 1, Regular), 1)
        else AfterFlipX(s, 2)
  }

  /** The turns scanCube makes after its last face, to bring the cube back to how it started. */
  function ScanCubeTail(p: Platform, s: Pose): Pose
  {
    match p
    case Pi => AfterRotateY(p, AfterFlipX(AfterRotateY(p, s, 2, Regular), 1), 1, Prime)
    case Spike => AfterRotateY(p, AfterFlipX(AfterRotateY(p, s, 1, Prime), 1), 1, Prime)
  }

  /** scanCube's motion through its first `n` faces, each its lead then scanFace. */
  function ScanCubeStages(p: Platform, s: Pose, n: nat): Pose
    requires n <= 6
  {
    if n == 0 then s
    else AfterScanFace(p, ScanCubeLead(p, ScanCubeStages(p, s, n - 1), n - 1), ScanFaces[n - 1])
  }

  /** scanCube's motion. */
  function AfterScanCube(p: Platform, s: Pose): Pose
  {
    ScanCubeTail(p, ScanCubeStages(p, s, 6))
  }

  /** The faces calibrate reads, in its order: U, F, D, B, R, L. */
  const CalibrationOrder: seq<nat> := [0, 2, 3, 5, 1, 4]

  /** The flips and turns calibrate makes before reading its `k`-th centre. */
  function CalibrateLead(p: Platform, s: Pose, k: nat): Pose
  {
    if k == 0 then AfterFlipX(MoveFlipper(s, Hold), 1)
    else if k <= 3 then AfterFlipX(s, 1)
    else if k == 4 then AfterFlipX(AfterRotateY(p, s, 1, Regular), 1)
    else AfterFlipX(s, 2)
  }

  /** calibrate's motion up to and including its `n`-th centre reading. */
  function CalibrateStages(p: Platform, s: Pose, n: nat): Pose
    requires n <= 6
  {
    if n == 0 then s
    else ReadCentre(CalibrateLead(p, CalibrateStages(p, s, n - 1), n - 1), CalibrationOrder[n - 1])
  }

  /** The turns calibrate makes after its last centre. */
  function CalibrateTail(p: Platform, s: Pose): Pose
  {
    AfterRotateY(p, AfterFlipX(AfterRotateY(p, s, 1, Prime), 1), 1, Prime)
  }

  /** calibrate's motion, the same sequence of calls on both platforms. */
  function AfterCalibrate(p: Platform, s: Pose): Pose
  {
    CalibrateTail(p, CalibrateStages(p, s, 6))
  }

  /** The lead of each face reads nothing and turns no layer. */
  lemma ScanCubeLeadReads(p: Platform, s: Pose, f: nat)
    ensures Reads(s, ScanCubeLead(p, s, f), [])
  {
    if f == 0 {
      var held := MoveFlipper(s, Hold);
      ReadsOne(s, held, FlipperTo(Hold));
      FlipXReads(held, 1);
      ReadsThen(s, held, ScanCubeLead(p, s, f), [], []);
    } else if f <= 2 || (p == Spike && f == 3) {
      FlipXReads(s, 1);
    } else if p == Pi && f == 3 {
      FlipXReads(s, 1);
      RotateYReads(p, AfterFlipX(s, 1), 2, Regular);
      ReadsThen(s, AfterFlipX(s, 1), ScanCubeLead(p, s, f), [], []);
    } else if p == Pi && f == 4 {
      var s1 := AfterRotateY(p, s, 1, Prime);
      var s2 := AfterFlipX(s1, 1);
      RotateYReads(p, s, 1, Prime);
      FlipXReads(s1, 1);
      RotateYReads(p, s2, 1, Regular);
      ReadsThen(s, s1, s2, [], []);
      ReadsThen(s, s2, ScanCubeLead(p, s, f), [], []);
    } else if p == Pi {
      FlipXReads(s, 2);
      RotateYReads(p, AfterFlipX(s, 2), 2, Regular);
      ReadsThen(s, AfterFlipX(s, 2), ScanCubeLead(p, s, f), [], []);
    } else if f == 4 {
      var s1 := AfterRotateY(p, s, 1, Regular);
      RotateYReads(p, s, 1, Regular);
      FlipXReads(s1, 1);
      ReadsThen(s, s1, ScanCubeLead(p, s, f), [], []);
    } else {
      FlipXReads(s, 2);
    }
  }

  /** The turn back after the last face reads nothing and turns no layer. */
  lemma ScanCubeTailReads(p: Platform, s: Pose)
    ensures Reads(s, ScanCubeTail(p, s), [])
  {
    var first := if p == Pi then 2 else 1;
    var dir := if p == Pi then Regular else Prime;
    var s1 := AfterRotateY(p, s, first, dir);
    var s2 := AfterFlipX(s1, 1);
    RotateYReads(p, s, first, dir);
    FlipXReads(s1, 1);
    RotateYReads(p, s2, 1, Prime);
    ReadsThen(s, s1, s2, [], []);
    ReadsThen(s, s2, ScanCubeTail(p, s), [], []);
  }

  /** The first `n` readings of a whole scan: face `ScanFaces[k / 9]`, tile `ScanTiles[k % 9]`, at that tile's preset. */
  function ScanReadings(n: nat): seq<(nat, nat, Preset)>
    requires n <= 54
  {
    seq(n, k requires 0 <= k < n => (ScanFaces[k / 9], ScanTiles[k % 9], TilePreset(ScanTiles[k % 9])))
  }

  /** The readings of the next face continue the readings of the faces before it. */
  lemma ScanReadingsByFace(n: nat)
    requires n < 6
    ensures ScanReadings(9 * n) + FaceReadings(ScanFaces[n], 9) == ScanReadings(9 * n + 9)
  {
    var a := ScanReadings(9 * n) + FaceReadings(ScanFaces[n], 9);
    forall k | 9 * n <= k < 9 * n + 9
      ensures a[k] == ScanReadings(9 * n + 9)[k]
    {
      assert k / 9 == n && k % 9 == k - 9 * n;
    }
  }

  /**
   * After `n` faces, scanCube has read the first `9n` facelets of the scan,
   * face by face in scan order and each face's tiles in scanFace's order,
   * each at its tile's preset, and has turned no layer.
   */
  lemma {:induction false} ScanCubeStagesReads(p: Platform, s: Pose, n: nat)
    requires n <= 6
    ensures Reads(s, ScanCubeStages(p, s, n), ScanReadings(9 * n))
    decreases n
  {
    if n == 0 {
      assert Increment(s, s) == [];
    } else {
      var prev := ScanCubeStages(p, s, n - 1);
      ScanCubeStagesReads(p, s, n - 1);
      ScanCubeStageReads(p, prev, n - 1);
      ReadsThen(s, prev, ScanCubeStages(p, s, n), ScanReadings(9 * (n - 1)), FaceReadings(ScanFaces[n - 1], 9));
      ScanReadingsByFace(n - 1);
    }
  }

  /** scanCube's `f`-th stage, its lead and then scanFace, reads the nine tiles of face `ScanFaces[f]`. */
  lemma ScanCubeStageReads(p: Platform, s: Pose, f: nat)
    requires f < 6
    ensures Reads(s, AfterScanFace(p, ScanCubeLead(p, s, f), ScanFaces[f]), FaceReadings(ScanFaces[f], 9))
  {
    var lead := ScanCubeLead(p, s, f);
    ScanCubeLeadReads(p, s, f);
    ScanFaceReadings(p, lead, ScanFaces[f]);
    ReadsThen(s, lead, AfterScanFace(p, lead, ScanFaces[f]), [], FaceReadings(ScanFaces[f], 9));
    assert [] + FaceReadings(ScanFaces[f], 9) == FaceReadings(ScanFaces[f], 9);
  }

  /**
   * scanCube takes 54 readings, the `k`-th of facelet `ScanIndex(k)` with
   * the flipper at the preset for that tile, and turns no layer of the cube
   * from start to end.
   */
  lemma ScanCubeReads(p: Platform, s: Pose)
    ensures Reads(s, AfterScanCube(p, s), ScanReadings(54))
    ensures forall k :: 0 <= k < 54 ==> FaceletIndex(ScanReadings(54)[k].0, ScanReadings(54)[k].1) == ScanIndex(k)
  {
    ScanCubeStagesReads(p, s, 6);
    ScanCubeTailReads(p, ScanCubeStages(p, s, 6));
    ReadsThen(s, ScanCubeStages(p, s, 6), AfterScanCube(p, s), ScanReadings(54), []);
    assert ScanReadings(54) + [] == ScanReadings(54);
  }

  /** The flips and turns before each centre of calibrate read nothing and turn no layer. */
  lemma CalibrateLeadReads(p: Platform, s: Pose, k: nat)
    ensures Reads(s, CalibrateLead(p, s, k), [])
  {
    if k == 0 {
      var held := MoveFlipper(s, Hold);
      ReadsOne(s, held, FlipperTo(Hold));
      FlipXReads(held, 1);
      ReadsThen(s, held, CalibrateLead(p, s, k), [], []);
    } else if k <= 3 {
      FlipXReads(s, 1);
    } else if k == 4 {
      var s1 := AfterRotateY(p, s, 1, Regular);
      RotateYReads(p, s, 1, Regular);
      FlipXReads(s1, 1);
      ReadsThen(s, s1, CalibrateLead(p, s, k), [], []);
    } else {
      FlipXReads(s, 2);
    }
  }

  /** The first `n` readings of calibrate: the centre of face `CalibrationOrder[k]`, at the centre preset. */
  function CalibrationReadings(n: nat): seq<(nat, nat, Preset)>
    requires n <= 6
  {
    seq(n, k requires 0 <= k < n => (CalibrationOrder[k], 5, ScanCenter))
  }

  lemma CalibrationReadingsSnoc(n: nat)
    requires n < 6
    ensures CalibrationReadings(n) + [(CalibrationOrder[n], 5, ScanCenter)] == CalibrationReadings(n + 1)
  {
  }

  /** After `n` centres, calibrate has read the first `n` centres of its order and turned no layer. */
  lemma {:induction false} CalibrateStagesReads(p: Platform, s: Pose, n: nat)
    requires n <= 6
    ensures Reads(s, CalibrateStages(p, s, n), CalibrationReadings(n))
    decreases n
  {
    if n == 0 {
      assert Increment(s, s) == [];
    } else {
      var prev := CalibrateStages(p, s, n - 1);
      var lead := CalibrateLead(p, prev, n - 1);
      var face := CalibrationOrder[n - 1];
      CalibrateStagesReads(p, s, n - 1);
      CalibrateLeadReads(p, prev, n - 1);
      assert CalibrateStages(p, s, n) == ReadCentre(lead, face);
      ReadCentreReads(lead, face);
      ReadsThen(s, prev, lead, CalibrationReadings(n - 1), []);
      assert CalibrationReadings(n - 1) + [] == CalibrationReadings(n - 1);
      ReadsThen(s, lead, ReadCentre(lead, face), CalibrationReadings(n - 1), [(face, 5, ScanCenter)]);
      CalibrationReadingsSnoc(n - 1);
    }
  }

  /**
   * calibrate takes six readings, the centres of U, F, D, B, R and L in that
   * order, each with the flipper at the centre preset, and turns no layer of
   * the cube from start to end.
   */
  lemma CalibrateReads(p: Platform, s: Pose)
    ensures Reads(s, AfterCalibrate(p, s), CalibrationReadings(6))
    ensures forall k :: 0 <= k < 6 ==> CalibrationReadings(6)[k] == (CalibrationOrder[k], 5, ScanCenter)
  {
    var s6 := CalibrateStages(p, s, 6);
    CalibrateStagesReads(p, s, 6);
    CalibrateTailReads(p, s6);
    ReadsThen(s, s6, AfterCalibrate(p, s), CalibrationReadings(6), []);
    assert CalibrationReadings(6) + [] == CalibrationReadings(6);
  }

  /** The turns after calibrate's last centre read nothing and turn no layer. */
  lemma CalibrateTailReads(p: Platform, s: Pose)
    ensures Reads(s, CalibrateTail(p, s), [])
  {
    var s1 := AfterRotateY(p, s, 1, Prime);
    var s2 := AfterFlipX(s1, 1);
    RotateYReads(p, s, 1, Prime);
    FlipXReads(s1, 1);
    RotateYReads(p, s2, 1, Prime);
    ReadsThen(s, s1, s2, [], []);
    ReadsThen(s, s2, CalibrateTail(p, s), [], []);
  }

  /** The references after calibrate's first `n` readings, starting from `r0`. */
  function RefsAfter(r0: seq<Option<Color>>, readings: seq<Color>, n: nat): (r: seq<Option<Color>>)
    requires |r0| == 6 && |readings| == 6 && n <= 6
    ensures |r| == 6
  {
    if n == 0 then r0 else RefsAfter(r0, readings, n - 1)[CalibrationOrder[n - 1] := Some(readings[n - 1])]
  }

  /**
   * calibrate's six calibrateCenter calls, in the order U, F, D, B, R, L,
   * set every face's reference, whatever was there before: the `k`-th
   * reading goes to face `CalibrationOrder[k]`.
   */
  lemma CalibrationFillsAll(r0: seq<Option<Color>>, readings: seq<Color>, m: Metric)
    requires |r0| == 6 && |readings| == 6 && forall k :: 0 <= k < 6 ==> |readings[k]| == Channels(m)
    ensures RefsAfter(r0, readings, 6) ==
            [Some(readings[0]), Some(readings[4]), Some(readings[1]), Some(readings[2]), Some(readings[5]), Some(readings[3])]
    ensures WellFormed(RefsAfter(r0, readings, 6), m) && Calibrated(RefsAfter(r0, readings, 6))
  {
    var r1 := r0[0 := Some(readings[0])];
    var r2 := r1[2 := Some(readings[1])];
    var r3 := r2[3 := Some(readings[2])];
    var r4 := r3[5 := Some(readings[3])];
    var r5 := r4[1 := Some(readings[4])];
    var r6 := r5[4 := Some(readings[5])];
    assert RefsAfter(r0, readings, 1) == r1;
    assert RefsAfter(r0, readings, 2) == r2;
    assert RefsAfter(r0, readings, 3) == r3;
    assert RefsAfter(r0, readings, 4) == r4;
    assert RefsAfter(r0, readings, 5) == r5;
    assert RefsAfter(r0, readings, 6) == r6;
    assert r6 == [Some(readings[0]), Some(readings[4]), Some(readings[1]), Some(readings[2]), Some(readings[5]), Some(readings[3])];
  }
}
