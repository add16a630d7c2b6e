# CubeBot, modelled in Dafny

CubeBot is a LEGO Rubik's-cube robot. A flipper arm tips the cube over or
holds its upper layers, a turntable turns the cube or its bottom layer, and
a colour sensor on the flipper reads the stickers. The repository holds two
copies of the control program:

- `cube_bot_pi.py`, for a Raspberry Pi with a Build HAT. Its sensor gives
  four channels (red, green, blue, intensity). It classifies a colour by
  Euclidean distance, builds the 54-letter cube string and performs the
  solver's answer move by move.
- `cube_bot.py`, for the LEGO SPIKE hub. Its sensor's
  `get_rgb_intensity()` gives four values (red, green, blue,
  intensity), but `getSide` compares only the first three and the
  calibration record `3I` holds only three, so the model keeps three
  channels. It classifies by Manhattan distance and only reports each
  tile's face.

The model has these modules:

| module | models |
|---|---|
| `Wrappers` | `Option` and `Result` |
| `Cube` | `Face`, `faceTable`, the facelet index `face*9 + tile - 1` and the 3x3 tile layout |
| `Kinematics` | the flipper presets of both copies and the motor commands; the primitives `flipX`, `rotateY`, `internal_rotateY` and `turnD` as functions on a `Pose` (flipper preset, commanded turntable angle, command trace), with a `Platform` (`Pi`, `Spike`) for where the copies differ |
| `Orientation` | a physical reading of a command trace: which face's centre sits where, and which layers have turned |
| `Moves` | the Pi's `uMove` ... `dMove` and what they do to the cube |
| `Notation` | `solveCube`'s reading of the solver's answer (`split(' ')`, face letter, `2` and `'`) |
| `Classifier` | `getSide` for both metrics |
| `Calibration` | the `nI` record format, the load at start-up and the save at the end of `calibrate` |
| `Scanning` | the scan order, the perimeter walk of `scanFace`, and the motion of `scanCube` and `calibrate` |
| `PiBot` | class `CubeBot`, the module state of `cube_bot_pi.py` |
| `SpikeBot` | class `CubeBot`, the module state of `cube_bot.py` |

Each class method that drives a motor is proved against a specification
function of the pose it leaves behind. Lemmas then say what those motions
mean: which layer each face move turns (`Moves.MoveEffect`), and, for a
face scan, a whole scan and a calibration, which facelet each reading is
filed under, in which order and at which flipper preset, without turning
any layer
(`Scanning.ScanFaceReadings`, `Scanning.ScanCubeReads`,
`Scanning.CalibrateReads`).

Hardware, the clock and files are parameters:

- Sensor readings are passed in, in the order the robot takes them.
- The calibration file is passed to the constructor as an optional byte
  string (`None` when it cannot be opened).
- `calibrate` returns the bytes it would write.

## Model

| member | source | states |
|---|---|---|
| Cube.FaceNumbering | cube_bot_pi.py:28-36 | the `Face` ordinals U=0..B=5 and `faceTable` name the same face |
| Cube.SentinelLabel | cube_bot_pi.py:244 | `faceTable[-1]` with the -1 getSide can return is 'B' (Python negative index) |
| Cube.FaceletIndexBijective | cube_bot_pi.py:244 | `face*9 + tile - 1` maps faces 0..5 and tiles 1..9 one to one onto 0..53, with `/9` and `%9` as its inverse |
| Cube.FaceletIndexInjective | cube_bot_pi.py:244 | two (face, tile) pairs never share a slot of `scanResult` |
| Kinematics.NearHoldIsHold | cube_bot_pi.py:86 | the Pi's ±20 degree test around `flipperHold` is met by the Hold preset and by no other preset |
| Kinematics.FlipXShape | cube_bot_pi.py:102-108 | flipX(count) appends `count` Hold/Flip pairs (none for count <= 0), keeps the turntable, ends at Flip, and keeps the rule that Flip is reached only from Hold |
| Kinematics.FlipOnlyFromHoldAppend | cube_bot_pi.py:102-108 | two traces that each keep the Flip-after-Hold rule keep it when joined, unless the second starts with Flip |
| Kinematics.TurnDShape | cube_bot_pi.py:79-82 | turnD lowers the flipper to Hold, then turns the turntable by internal_rotateY's amount, and nothing else |
| Kinematics.RotateYShape | cube_bot_pi.py:84-92 | rotateY never turns the turntable while the flipper is at Hold: SPIKE always lifts to Spin, the Pi exactly when the flipper is at Hold |
| Kinematics.TurntableConventions | cube_bot_pi.py:84-100 | the Pi's rotateY turns opposite to its internal_rotateY; SPIKE's rotateY is its internal_rotateY; the Pi's internal_rotateY turns opposite to SPIKE's |
| Orientation.RunAppend | cube_bot_pi.py:250-284 | the physical reading of two stretches of a trace composes |
| Orientation.RunThrough | cube_bot_pi.py:250-284 | reading between three successive poses splits at the middle one |
| Orientation.RunFlipX | cube_bot_pi.py:102-108 | flipX(count) tips the whole cube `count` times and turns no layer |
| Orientation.RunTurnD | cube_bot_pi.py:79-82 | the Pi's turnD turns the bottom layer by its count (reversed for prime) and leaves the cube's orientation alone |
| Orientation.TurnDQuarters | cube_bot_pi.py:95-100 | the Pi's internal_rotateY turns by whole quarter turns, `count` of them for regular and the reverse for prime |
| Orientation.RunRotateY | cube_bot_pi.py:84-92 | on either copy, rotateY turns the whole cube `count` quarters (the other way for prime) and turns no layer |
| Orientation.RunYaw | cube_bot_pi.py:84-92 | a turntable move of whole quarters with the flipper off Hold turns the whole cube by that many quarters |
| Orientation.NoLayerTurned | cube_bot_pi.py:79-92 | commands that never turn the turntable with the flipper at Hold turn no layer, whenever they have a physical reading |
| Orientation.FrameIdentities | cube_bot_pi.py:250-281 | the reorientations around each face move's turnD cancel (four tips, a quarter turn each way, and the F, R and L compositions) |
| Moves.EffectU | cube_bot_pi.py:250-253 | uMove turns exactly the top face's layer and restores the cube's orientation |
| Moves.EffectF | cube_bot_pi.py:255-260 | fMove turns exactly the front face's layer and restores the orientation |
| Moves.EffectB | cube_bot_pi.py:262-265 | bMove turns exactly the back face's layer and restores the orientation |
| Moves.EffectR | cube_bot_pi.py:267-273 | rMove turns exactly the right face's layer and restores the orientation |
| Moves.EffectL | cube_bot_pi.py:275-281 | lMove turns exactly the left face's layer and restores the orientation |
| Moves.TurnCubeAndFlip | cube_bot_pi.py:255-257 | the start of fMove, rMove and lMove turns the cube, then tips it once |
| Moves.TurnAndTurnBack | cube_bot_pi.py:258-260 | turnD, a half turn of the cube and one tip turn one layer and reorient the cube |
| Moves.TurnAndQuarterBack | cube_bot_pi.py:270-273 | the end of rMove and lMove turns one layer and reorients the cube |
| Moves.MoveEffect | cube_bot_pi.py:250-284 | each face move, from any orientation, turns exactly the layer of the face it is named after, by the quarters its count and direction ask for, and restores the orientation |
| Moves.MovesEffect | cube_bot_pi.py:287-301 | a sequence of moves turns exactly their faces' layers, in order, and ends in the starting orientation |
| Moves.UprightMoves | cube_bot_pi.py:250-284 | from the upright orientation, move X turns face X |
| Moves.TurnsOf | cube_bot_pi.py:287-301 | one layer turn per move |
| Moves.MoveTurntable | cube_bot_pi.py:250-284 | a move turns the turntable by turnD's amount plus whole turns (one for F and L, none otherwise) |
| Moves.MoveKeepsFlipRule | cube_bot_pi.py:250-284 | every move keeps the rule that the flipper reaches Flip only from Hold |
| Notation.Split | cube_bot_pi.py:289 | `split(' ')` gives at least one piece |
| Notation.SplitJoin | cube_bot_pi.py:289 | joining the pieces with single spaces gives the answer back; no piece holds a space; pieces = spaces + 1 |
| Notation.JoinSplit | cube_bot_pi.py:289 | space-free pieces joined and split again come back unchanged |
| Notation.SplitSpaceFree | cube_bot_pi.py:289 | a space-free string is one piece |
| Notation.SplitPrefix | cube_bot_pi.py:289 | a space-free piece then a space splits off first |
| Notation.ParseTokenMeaning | cube_bot_pi.py:292-301 | a piece is understood iff it is non-empty and starts with U, R, F, D, L or B in either case; count 2 iff it is two characters ending in `2`; prime iff two characters ending in `'`; the two error cases |
| Notation.TokenRoundTrip | cube_bot_pi.py:292-301 | the piece for every quarter, half and reversed turn reads back as that move |
| Notation.TokenExamples | cube_bot_pi.py:292-301 | "R2", "F'", "U", "d" as expected; "R2'" as a single regular R; "X" and "" rejected |
| Notation.ParseFromMeaning | cube_bot_pi.py:290-301 | the moves performed are the pieces before the first bad one, in order, and the error names that piece |
| Notation.ParseFromAppend | cube_bot_pi.py:290-301 | reading two runs of pieces stops in the first if it holds a bad piece, else goes on into the second |
| Notation.ParseStops | cube_bot_pi.py:290-301 | a bad piece after good ones ends the reading with its error |
| Notation.ParseContinues | cube_bot_pi.py:290-301 | a good piece after good ones adds its move |
| Notation.SolutionRoundTrip | cube_bot_pi.py:287-301 | every non-empty answer in the solver's notation is performed move for move with no error |
| Notation.EmptyPieceExamples | cube_bot_pi.py:289-292 | an empty answer and a doubled space give an empty piece, where `move[0]` raises |
| Notation.AnswerExample | cube_bot_pi.py:287-301 | "R2 F'" is a half turn of R, then a reversed quarter turn of F |
| Classifier.Scan | cube_bot_pi.py:144-160 | the loop after `k` references fails iff one of them is unset (naming the first), else holds a side in -1..k-1 |
| Classifier.ScanInvariant | cube_bot_pi.py:144-160 | after `k` references the loop holds the first of the nearest below the bound, or -1 with the bound |
| Classifier.FirstNearestUnique | cube_bot_pi.py:157-159 | the first-nearest side is unique |
| Classifier.ClassifyIsFirstNearest | cube_bot_pi.py:144-160 | getSide fails iff a reference is unset; otherwise it returns `side` iff `side` is the first nearest (ties go to the earlier face) |
| Classifier.GetSide | cube_bot.py:138-152 | the loop's result is the classification: error iff uncalibrated, else the first nearest |
| Classifier.DistanceBelowBound | cube_bot_pi.py:146 | with 32-bit channels every distance is below the initial bound in either metric |
| Classifier.NeverSentinel | cube_bot_pi.py:145-160 | with calibrated 32-bit references getSide never returns -1 |
| Classifier.DistanceZero | cube_bot_pi.py:305-309 | a distance is non-negative and zero iff the colours are equal |
| Classifier.SelfMatch | cube_bot_pi.py:144-160 | a reference classifies as its own face iff no earlier face has the same colour |
| Calibration.LittleEndianRoundTrip | cube_bot_pi.py:49 | little-endian encoding of `k` bytes and decoding are inverse both ways |
| Calibration.WordRoundTrip | cube_bot_pi.py:49 | one `I` word survives packing and unpacking, and four bytes survive the reverse |
| Calibration.RecordRoundTrip | cube_bot_pi.py:49 | an `nI` record survives packing and unpacking, and its bytes the reverse |
| Calibration.RecordAt | cube_bot_pi.py:49 | the `f`-th read, when present, has the record size |
| Calibration.PackAllRecords | cube_bot_pi.py:130-133 | record `f` of a saved file is the packing of reference `f` |
| Calibration.PackAllReadsBack | cube_bot_pi.py:130-133 | a saved file has six records' bytes, and each unpacks to its reference |
| Calibration.SaveReferences | cube_bot_pi.py:130-133 | the save succeeds iff every slot is set with `n` 32-bit channels, and then every record loads back; else it stops at the first bad slot, with the records before it written |
| Calibration.LoadReferences | cube_bot_pi.py:42-52 | the start-up load gives six slots; slot `f` is record `f` unpacked, or None when the file is missing or ran short before it |
| Calibration.ShortLoad | cube_bot_pi.py:48-52 | a short read leaves that slot and every later one unset |
| Calibration.FullLoad | cube_bot_pi.py:48-49 | a full read loads the current record and moves on by one record |
| Calibration.LoadedWellFormed | cube_bot_pi.py:49 | a loaded reference has `n` 32-bit channels and packs back to the bytes read |
| Calibration.SaveLoadRoundTrip | cube_bot_pi.py:42-52 | loading what a successful save wrote gives back all six references |
| Calibration.ShortRead | cube_bot_pi.py:48-49 | once the bytes fall short of a record, no later record is there |
| Calibration.FullRead | cube_bot_pi.py:48-49 | a full read yields the current record and the rest of the bytes |
| Calibration.RecordAtShape | cube_bot_pi.py:48-49 | record `f` is present iff the file holds `f + 1` records' bytes |
| Scanning.PerimeterCoversOuterTiles | cube_bot_pi.py:227 | `tiles` visits the eight non-centre tiles, each once |
| Scanning.PerimeterPresets | cube_bot_pi.py:228-232 | the parity test picks the corner preset exactly at corners and the edge preset exactly at edges |
| Scanning.PerimeterWalk | cube_bot_pi.py:227-237 | each 45 degree step moves to a tile sharing a side with the last, all the way round |
| Scanning.ScanTilesCoverFace | cube_bot_pi.py:221-233 | scanFace reads all nine tiles of a face, each once, the centre first |
| Scanning.ScanFacesCoverCube | cube_bot_pi.py:188-206 | scanCube visits all six faces, each once |
| Scanning.FaceIndicesDistinct | cube_bot_pi.py:244 | one face's scan writes nine different slots of that face |
| Scanning.FaceIndexAt | cube_bot_pi.py:222-244 | the `n`-th slot of a face's scan is its `n`-th tile's slot, on that face, not written before in that scan |
| Scanning.ScanIndicesPermutation | cube_bot_pi.py:188-244 | a whole scan writes each of the 54 slots exactly once |
| Scanning.ScanIndicesByFace | cube_bot_pi.py:188-206 | the `f`-th nine readings of a scan fill the slots of the `f`-th scanned face |
| Scanning.AngleRange | cube_bot_pi.py:234-237 | the commanded angle for positions 45..360 is in (-180, 180], agrees with the position modulo 360, and is 0 at 360 |
| Scanning.ReadingsAppend | cube_bot_pi.py:219-246 | the readings, the final preset and the count of turntable moves made at Hold of two stretches of commands compose |
| Scanning.ReadsThen | cube_bot_pi.py:188-217 | two successive stretches of one run take the first's readings, then the second's, and together turn no layer |
| Scanning.ReadsOne | cube_bot_pi.py:8-18 | a flipper command reads nothing, a turntable command off Hold reads nothing, a sensor read is one reading at the current preset |
| Scanning.FlipXReads | cube_bot_pi.py:102-108 | flipX reads nothing and turns no layer |
| Scanning.RotateYReads | cube_bot_pi.py:84-92 | rotateY reads nothing and turns no layer, on either copy |
| Scanning.ReadCentreReads | cube_bot_pi.py:135-141 | the centre preset and one read give one reading, of tile 5, at the centre preset |
| Scanning.ScanFaceStartReadings | cube_bot_pi.py:221-226 | scanFace first reads the centre with the sensor at the centre preset |
| Scanning.ScanFaceStepReadings | cube_bot_pi.py:228-237 | one pass of the loop reads perimeter tile `k` at that pass's preset, and its turntable move is made off Hold |
| Scanning.ScanFaceStepsReadings | cube_bot_pi.py:219-237 | after `n` passes, the centre and the first `n` perimeter tiles were read in order, each at the preset for its kind of tile, and no layer was turned |
| Scanning.ScanFaceReadings | cube_bot_pi.py:219-238 | scanFace reads all nine tiles of its face, centre first, each at the right preset, and turns no layer |
| Scanning.ScanCubeLeadReads | cube_bot_pi.py:190-205 | the flips and turns before each scanned face read nothing and turn no layer |
| Scanning.ScanCubeTailReads | cube_bot_pi.py:207-209 | the turns after the last scanned face read nothing and turn no layer |
| Scanning.ScanReadingsByFace | cube_bot_pi.py:188-206 | the readings of scan face `n` continue the readings of the faces before it |
| Scanning.ScanCubeStageReads | cube_bot_pi.py:190-206 | one stage of scanCube, its lead and then scanFace, reads the nine tiles of its face in scanFace's order |
| Scanning.ScanCubeStagesReads | cube_bot_pi.py:190-206 | after `n` faces, scanCube has read the first `9n` facelets in scan order, each at its tile's preset, and turned no layer |
| Scanning.ScanCubeReads | cube_bot_pi.py:188-209 | scanCube takes 54 readings, the `k`-th of facelet `ScanIndex(k)` at that tile's preset, and turns no layer |
| Scanning.CalibrateLeadReads | cube_bot_pi.py:112-124 | the flips and turns before each calibrated centre read nothing and turn no layer |
| Scanning.CalibrateStagesReads | cube_bot_pi.py:112-125 | after `n` centres, calibrate has read the first `n` centres of its order at the centre preset and turned no layer |
| Scanning.CalibrateTailReads | cube_bot_pi.py:126-128 | the turns after the last centre read nothing and turn no layer |
| Scanning.CalibrateReads | cube_bot_pi.py:110-128 | calibrate reads the centres of U, F, D, B, R, L in that order, each at the centre preset, and turns no layer |
| Scanning.ScanFaceTurntable | cube_bot.py:198-212 | on the Pi the turntable ends each face at angle 0; on SPIKE it ends one full turn further on |
| Scanning.CalibrationFillsAll | cube_bot_pi.py:110-128 | calibrate's six calibrateCenter calls in the order U, F, D, B, R, L set every reference, each to the reading calibrate files under that face |
| PiBot.Labels | cube_bot_pi.py:243-244 | one letter per reading |
| PiBot.FaceWritesMeaning | cube_bot_pi.py:219-244 | after scanFace the first `n` tiles of the face hold their letters and no slot of another face changes |
| PiBot.ReadingsFill | cube_bot_pi.py:188-244 | scanning face `f` after the earlier faces extends what the buffer holds by that face's letters |
| PiBot.FaceStepFills | cube_bot_pi.py:188-244 | storing scan face `f`'s letters extends the filled part of the buffer by that face |
| PiBot.FilledExtends | cube_bot_pi.py:188-244 | a face's writes that touch only that face extend the filled part |
| PiBot.FilledEverySlot | cube_bot_pi.py:185-211 | once the whole scan is stored, every slot of `scanResult` holds a letter, so the join succeeds |
| PiBot.JoinedLetters | cube_bot_pi.py:211 | the joined string holds reading `k`'s letter at reading `k`'s slot |
| PiBot.ScanIndicesPrefix | cube_bot_pi.py:188-206 | the slots of the first `f + 1` faces are those of the first `f`, then face `f`'s |
| PiBot.CubeBot.constructor | cube_bot_pi.py:38-52 | the buffer is empty and each reference is what the `4I` file holds for it |
| PiBot.CubeBot.RunFlipperTo | cube_bot_pi.py:8-15 | a flipper command moves to the preset and is traced |
| PiBot.CubeBot.RunTurntableFor | cube_bot_pi.py:17-18 | a relative turntable command adds its degrees and is traced |
| PiBot.CubeBot.RunTurntableTo | cube_bot_pi.py:17-18 | an absolute turntable command sets the angle and is traced |
| PiBot.CubeBot.Initialize | cube_bot_pi.py:62-69 | flipper Home, then turntable to 0 |
| PiBot.CubeBot.Solved | cube_bot_pi.py:72-75 | flipper Home, then a 0-degree turntable move |
| PiBot.CubeBot.FlipX | cube_bot_pi.py:102-108 | the loop's pose is flipX's |
| PiBot.CubeBot.InternalRotateY | cube_bot_pi.py:95-100 | -90·count regular, +90·count prime |
| PiBot.CubeBot.RotateY | cube_bot_pi.py:84-92 | lift to Spin only near Hold, then +90·count regular, -90·count prime |
| PiBot.CubeBot.TurnD | cube_bot_pi.py:79-82 | Hold, then internal_rotateY |
| PiBot.CubeBot.UMove | cube_bot_pi.py:250-253 | the pose of uMove (its effect is Moves.EffectU) |
| PiBot.CubeBot.FMove | cube_bot_pi.py:255-260 | the pose of fMove (Moves.EffectF) |
| PiBot.CubeBot.BMove | cube_bot_pi.py:262-265 | the pose of bMove (Moves.EffectB) |
| PiBot.CubeBot.RMove | cube_bot_pi.py:267-273 | the pose of rMove (Moves.EffectR) |
| PiBot.CubeBot.LMove | cube_bot_pi.py:275-281 | the pose of lMove (Moves.EffectL) |
| PiBot.CubeBot.DMove | cube_bot_pi.py:283-284 | the pose of dMove, which is turnD |
| PiBot.CubeBot.FaceMove | cube_bot_pi.py:301 | the looked-up move function performs that move (Moves.MoveEffect) |
| PiBot.CubeBot.SolveCube | cube_bot_pi.py:287-301 | performs the moves of the pieces before the first bad one and reports that piece's error (Notation.ParseFromMeaning, Moves.MovesEffect) |
| PiBot.CubeBot.GetSide | cube_bot_pi.py:144-160 | squared Euclidean classification: error iff a reference is unset, else the first nearest |
| PiBot.CubeBot.ScanTile | cube_bot_pi.py:240-246 | traces the reading; stores `faceTable[getSide(rgb)]` at `face*9 + tile - 1` and changes no other slot; with a reference unset it raises and stores nothing |
| PiBot.CubeBot.ScanPerimeterStep | cube_bot_pi.py:229-237 | one pass of the loop: its pose, the next position (+45), and the tile's letter stored at its slot |
| PiBot.CubeBot.ScanFace | cube_bot_pi.py:219-246 | fails iff a reference is unset, and then stops after the centre's reading with the buffer unchanged; else scanFace's pose, the nine tiles of the face read in order at their presets, the nine slots written in order, and the buffer as FaceWrites (see FaceWritesMeaning) |
| PiBot.CubeBot.TurnToScanFace | cube_bot_pi.py:190-205 | the flips and turns before each scanned face, which read nothing and turn no layer |
| PiBot.CubeBot.ScanCubeFace | cube_bot_pi.py:192-206 | scanning the `f`-th face extends the scan's progress by that face |
| PiBot.CubeBot.ScanCubeStage | cube_bot_pi.py:190-206 | one face's turns and scan extend the progress and follow scanCube's motion, having read the first `9(f+1)` facelets in scan order |
| PiBot.CubeBot.ScanAllFaces | cube_bot_pi.py:190-206 | the six stages read the 54 facelets in scan order and fill the buffer with all 54 letters at their slots |
| PiBot.CubeBot.Joined | cube_bot_pi.py:211 | `''.join(scanResult)` of a full buffer is its letters in slot order |
| PiBot.CubeBot.TurnBackAfterScan | cube_bot_pi.py:207-210 | the turns after the last face, which read nothing and turn no layer |
| PiBot.CubeBot.ScanCube | cube_bot_pi.py:188-217 | fails iff a reference is unset, and then stops at the first face's centre with the buffer unchanged; else scanCube's pose, reading `k` taken of facelet `ScanIndex(k)` at its preset, no layer turned, every slot written once, and the returned string holds reading `k`'s letter at that slot |
| PiBot.CubeBot.CalibrateCenter | cube_bot_pi.py:135-141 | centre preset, one reading, stored as that face's reference and nothing else |
| PiBot.CubeBot.CalibrateStep | cube_bot_pi.py:112-125 | calibrate's `k`-th flips and centre reading |
| PiBot.CubeBot.CalibrateAllSteps | cube_bot_pi.py:112-125 | the six steps set the references as RefsAfter says |
| PiBot.CubeBot.TurnBackAfterCalibrate | cube_bot_pi.py:126-128 | the turns after the last centre, which read nothing and turn no layer |
| PiBot.CubeBot.CalibrateCenters | cube_bot_pi.py:110-128 | calibrate's motion, taking centre-preset readings filed under U, F, D, B, R, L in order and turning no layer; every reference set to the reading filed under its face |
| PiBot.CubeBot.Calibrate | cube_bot_pi.py:110-133 | the centres read in order, no layer turned, all references set; the save succeeds iff every reading is 32-bit, and the saved file loads back as the references; else it stops at the first bad face |
| SpikeBot.SidesAppend | cube_bot.py:214-218 | the classifications of two runs of readings join |
| SpikeBot.GetSideTie | cube_bot.py:230-231 | (50,14,100) is 3 from faces 0 and 5 and classifies as 0: the tie goes to the earlier face |
| SpikeBot.GetSideBack | cube_bot.py:230-232 | (50,14,287) classifies as face 5 |
| SpikeBot.GetSideDown | cube_bot.py:230-233 | (789,660,570) classifies as face 3 |
| SpikeBot.CubeBot.constructor | cube_bot.py:38-52 | each reference is what the `3I` file holds for it |
| SpikeBot.CubeBot.RunFlipperTo | cube_bot.py:10-17 | a flipper command moves to the preset and is traced |
| SpikeBot.CubeBot.RunTurntableFor | cube_bot.py:19-20 | a relative turntable command adds its degrees and is traced |
| SpikeBot.CubeBot.RunTurntableTo | cube_bot.py:19-20 | an absolute turntable command sets the angle and is traced |
| SpikeBot.CubeBot.Initialize | cube_bot.py:63-68 | flipper Home, then turntable to 0 |
| SpikeBot.CubeBot.Solved | cube_bot.py:71-73 | flipper Home only |
| SpikeBot.CubeBot.FlipX | cube_bot.py:94-98 | the loop's pose is flipX's |
| SpikeBot.CubeBot.InternalRotateY | cube_bot.py:87-92 | +90·count regular, -90·count prime |
| SpikeBot.CubeBot.RotateY | cube_bot.py:82-85 | always lift to Spin, then internal_rotateY |
| SpikeBot.CubeBot.TurnD | cube_bot.py:77-80 | Hold, then internal_rotateY |
| SpikeBot.CubeBot.GetSide | cube_bot.py:138-152 | Manhattan classification: error iff a reference is unset, else the first nearest |
| SpikeBot.CubeBot.ScanTile | cube_bot.py:214-218 | traces the reading and returns getSide of it |
| SpikeBot.CubeBot.ScanPerimeterStep | cube_bot.py:205-211 | one pass of the loop: its pose and the tile's side |
| SpikeBot.CubeBot.ScanFace | cube_bot.py:198-217 | fails iff a reference is unset, and then stops after the centre's reading; else scanFace's pose, the nine tiles of the face read in order at their presets, and the nine sides are the classifications of the nine readings |
| SpikeBot.CubeBot.TurnToScanFace | cube_bot.py:179-191 | the flips and turns before each scanned face, which read nothing and turn no layer |
| SpikeBot.CubeBot.ScanCubeStage | cube_bot.py:179-192 | one face's turns and scan add its nine sides, having read the first `9(f+1)` facelets in scan order |
| SpikeBot.CubeBot.ScanAllFaces | cube_bot.py:179-192 | the six stages read the 54 facelets in scan order and give 54 sides, each the classification of its reading |
| SpikeBot.CubeBot.TurnBackAfterScan | cube_bot.py:193-196 | the turns after the last face, which read nothing and turn no layer |
| SpikeBot.CubeBot.ScanCube | cube_bot.py:177-196 | fails iff a reference is unset, and then stops at the first face's centre; else scanCube's pose, reading `k` taken of facelet `ScanIndex(k)` at its preset, no layer turned, and side `k` is the classification of reading `k` |
| SpikeBot.CubeBot.CalibrateCenter | cube_bot.py:129-135 | centre preset, one reading, stored as that face's reference and nothing else |
| SpikeBot.CubeBot.CalibrateStep | cube_bot.py:102-115 | calibrate's `k`-th flips and centre reading |
| SpikeBot.CubeBot.CalibrateAllSteps | cube_bot.py:102-115 | the six steps set the references as RefsAfter says |
| SpikeBot.CubeBot.TurnBackAfterCalibrate | cube_bot.py:116-118 | the turns after the last centre, which read nothing and turn no layer |
| SpikeBot.CubeBot.CalibrateCenters | cube_bot.py:100-118 | calibrate's motion, taking centre-preset readings filed under U, F, D, B, R, L in order and turning no layer; every reference set to the reading filed under its face |
| SpikeBot.CubeBot.Calibrate | cube_bot.py:100-127 | the centres read in order, no layer turned, all references set; the save succeeds iff every reading is 32-bit, and the saved file loads back; else it stops at the first bad face, as CPython's `struct` would (see Left out) |

## Left out

- Floating point: the Pi's `colorDistance` takes `math.sqrt` of an integer sum, which Python first rounds to a float. The model compares the exact squared distances against the square of the bound (10^22). The two agree while every squared distance stays below 2^48, which channel values below 2^23 guarantee: there the sums are exact floats and the square roots of different sums stay more than one float step apart. For larger sums, two different sums can round to the same square root: the source then keeps the earlier face where the model may pick a later, strictly nearer one (sample (0,0,0,0), U reference (4294967295,1,0,0), R reference (4294967295,0,0,0), the other four (4294967295,4294967295,0,0): the source answers U, the model R).
- `rgb2lab` and the code after it in `cube_bot_pi.py` are not called by the core and are not modelled.
- Printing, `colorTable` and `scanColorResult` are debugging output and are not modelled. `scanColorResult` is built as `[[None]*9] * 6`, six references to one list, so its per-face rows could not be told apart anyway.
- `time.sleep` and `wait_for_seconds`, motor speeds, stop actions, the `direction` keyword of `run_to_position` and `release` do not change a commanded position and are not modelled.
- The motors are modelled by the angle last commanded. The hardware's actual position, its wrap-around and its timing are left out. The Pi's `get_position()` test is modelled on the preset last commanded.
- Files: `open`, `close`, `expanduser` and SPIKE's `uos.mkdir` are not modelled. A file that cannot be opened is `None`. Any failure inside the load's bare `except` is read as "stop loading".
- The `kociemba` solver, both main programs, `run_spike.py`, `cube_demo.py`, `rover.py`, `typings` and `net7` are not part of this model.
- The SPIKE hub's `get_rgb_intensity()` returns four values and `calibrateCenter` (cube_bot.py:133-134) stores all four in `colorReference`. The model keeps only the three that `getSide`'s distance uses and that the `3I` record writes; the fourth value held in memory until the save is not modelled.
- SpikeBot.CubeBot.Calibrate: the save is modelled with the checks of CPython's `struct.pack` (a channel outside 0..2^32-1 stops the save with `BadRecord`, leaving the faces before it written). The hub's `ustruct.pack('3I', *rgb)` (cube_bot.py:126) checks neither the range nor the argument count: it writes each value's low four bytes and drops the fourth value. So for a reading such as (2^32, 0, 0) the hub writes twelve zero bytes and saves all six records, where the model reports `BadRecord`. The two agree whenever every channel is in 0..2^32-1, which the sensor's 0..1024 readings always are.
- SpikeBot.CubeBot.ScanTile: the `faceTable[face]` and `colorTable[color]` in its message are not modelled.
- PiBot.CubeBot.ScanPerimeterStep: requires calibrated references. It is one pass of scanFace's loop, which runs only after the centre's scanTile has returned, and that happens only when every reference is set. The uncalibrated path is modelled in PiBot.CubeBot.ScanFace.
- PiBot.CubeBot.ScanCubeFace: requires calibrated references, because it is a face of scanCube after the check in PiBot.CubeBot.ScanCube has passed. The uncalibrated path is modelled in PiBot.CubeBot.ScanCube.
- PiBot.CubeBot.ScanCubeStage: requires calibrated references, for the same reason as PiBot.CubeBot.ScanCubeFace.
- PiBot.CubeBot.ScanAllFaces: requires calibrated references, for the same reason as PiBot.CubeBot.ScanCubeFace.
- SpikeBot.CubeBot.ScanPerimeterStep: requires calibrated references. It is one pass of scanFace's loop, which runs only after the centre's getSide has returned. The uncalibrated path is modelled in SpikeBot.CubeBot.ScanFace.
- SpikeBot.CubeBot.ScanCubeStage: requires calibrated references, because it is a stage of scanCube after the check in SpikeBot.CubeBot.ScanCube has passed. The uncalibrated path is modelled in SpikeBot.CubeBot.ScanCube.
- SpikeBot.CubeBot.ScanAllFaces: requires calibrated references, for the same reason as SpikeBot.CubeBot.ScanCubeStage.
- PiBot.CubeBot.ScanCube and SpikeBot.CubeBot.ScanCube: test the references before the first face. The source has no such test: it makes the first face's lead and centre read and then raises. The model makes the same motion and returns the error in place of raising.
- Orientation.RunTurnD: states the physical reading for the Pi only.
- Scanning.ScanCubeReads: states that a scan turns no layer, but not where the cube ends. scanFace's own turntable moves have no physical reading here. The Pi's are absolute `run_to_position` calls (cube_bot_pi.py:226 and 237). SPIKE's are 45 degree steps (cube_bot.py:211). So the model does not claim that the cube ends a scan as it started.
- Orientation: the tip direction and the turntable sign are not in the source. They are chosen so that bMove turns B and a regular dMove turns D clockwise. Moves.EffectB and the sense of D's turn follow from that choice.
- Two behaviours of the code as written that a reader might not expect, which the model keeps:
  - `"R2'"` is three characters long, so it reads as a single regular R turn rather than as an error.
  - A calibration file that runs short keeps the records read before the short one, rather than loading nothing.
