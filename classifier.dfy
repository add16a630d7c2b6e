/**
 * getSide: classify a sampled colour as the face whose calibrated reference
 * colour is nearest. The Pi copy measures the Euclidean distance over four
 * channels (red, green, blue, intensity); since the square root is
 * increasing, the model compares squared distances, and the loop's initial
 * best of 10^11 becomes 10^22. The SPIKE copy measures the Manhattan
 * distance over three channels against 10^11. Both replace the best side
 * only on a strictly smaller distance, so ties go to the earliest face in
 * U, R, F, D, L, B order, and both start from the side -1.
 */
module Classifier {
  import opened Wrappers

  type Color = seq<int>

  datatype Metric = SquaredEuclidean | Manhattan

  function Channels(m: Metric): nat
  {
    match m
    case SquaredEuclidean => 4
    case Manhattan => 3
  }

  function Sq(x: int): int { x * x }

  function Abs(x: int): int { if x < 0 then -x else x }

  function Distance(m: Metric, a: Color, b: Color): int
    requires |a| == Channels(m) && |b| == Channels(m)
  {
    match m
    case SquaredEuclidean => Sq(a[0] - b[0]) + Sq(a[1] - b[1]) + Sq(a[2] - b[2]) + Sq(a[3] - b[3])
    case Manhattan => Abs(a[0] - b[0]) + Abs(a[1] - b[1]) + Abs(a[2] - b[2])
  }

  /** getSide's initial `bestSideE`, in the units of the metric. */
  function InitialBest(m: Metric): int
  {
    match m
    case SquaredEuclidean => 100000000000 * 100000000000
    case Manhattan => 100000000000
  }

  /** Six reference slots, each either unset or a colour with the metric's channel count. */
  predicate WellFormed(refs: seq<Option<Color>>, m: Metric)
  {
    |refs| == 6 && forall i :: 0 <= i < 6 && refs[i].Some? ==> |refs[i].value| == Channels(m)
  }

  predicate Calibrated(refs: seq<Option<Color>>)
  {
    |refs| == 6 && forall i :: 0 <= i < 6 ==> refs[i].Some?
  }

  /** A reference that is still None makes the source's arithmetic on it raise. */
  datatype ClassifyError = MissingReference(face: nat)

  function RefDistance(sample: Color, refs: seq<Option<Color>>, m: Metric, i: nat): int
    requires WellFormed(refs, m) && |sample| == Channels(m) && i < 6 && refs[i].Some?
  {
    Distance(m, sample, refs[i].value)
  }

  /** getSide's (bestSide, bestSideE) after its loop has looked at the first `k` references. */
  function Scan(sample: Color, refs: seq<Option<Color>>, m: Metric, k: nat): (r: Result<(int, int), ClassifyError>)
    requires WellFormed(refs, m) && |sample| == Channels(m) && k <= 6
    ensures r.Ok? <==> forall i :: 0 <= i < k ==> refs[i].Some?
    ensures r.Ok? ==> -1 <= r.value.0 < k
    ensures r.Err? ==> r.error.face < k && refs[r.error.face].None? &&
                       forall i :: 0 <= i < r.error.face ==> refs[i].Some?
  {
    if k == 0 then Ok((-1, InitialBest(m)))
    else
      match Scan(sample, refs, m, k - 1)
      case Err(e) => Err(e)
      case Ok(best) =>
        if refs[k - 1].None? then Err(MissingReference(k - 1))
        else
          var e := Distance(m, sample, refs[k - 1].value);
          if e < best.1 then Ok((k - 1, e)) else Ok(best)
  }

  function Classify(sample: Color, refs: seq<Option<Color>>, m: Metric): Result<int, ClassifyError>
    requires WellFormed(refs, m) && |sample| == Channels(m)
  {
    match Scan(sample, refs, m, 6)
    case Err(e) => Err(e)
    case Ok(best) => Ok(best.0)
  }

  /**
   * What a strict-less-than scan in face order settles on: the first of the
   * references at the least distance, provided that distance is below the
   * initial bound; the sentinel -1 when no reference is below it.
   */
  ghost predicate FirstNearest(sample: Color, refs: seq<Option<Color>>, m: Metric, side: int)
    requires WellFormed(refs, m) && Calibrated(refs) && |sample| == Channels(m)
  {
    if side == -1 then
      forall i :: 0 <= i < 6 ==> RefDistance(sample, refs, m, i) >= InitialBest(m)
    else
      && 0 <= side < 6
      && RefDistance(sample, refs, m, side) < InitialBest(m)
      && (forall i :: 0 <= i < 6 ==> RefDistance(sample, refs, m, side) <= RefDistance(sample, refs, m, i))
      && (forall i :: 0 <= i < side ==> RefDistance(sample, refs, m, side) < RefDistance(sample, refs, m, i))
  }

  /** After `k` references the loop holds the first nearest of them, or -1 with the initial bound. */
  lemma {:induction false} ScanInvariant(sample: Color, refs: seq<Option<Color>>, m: Metric, k: nat)
    requires WellFormed(refs, m) && Calibrated(refs) && |sample| == Channels(m) && k <= 6
    ensures Scan(sample, refs, m, k).Ok?
    ensures var (side, e) := Scan(sample, refs, m, k).value;
      && (side == -1 ==> e == InitialBest(m) && forall i :: 0 <= i < k ==> RefDistance(sample, refs, m, i) >= e)
      && (side != -1 ==>
            && 0 <= side < k
            && e == RefDistance(sample, refs, m, side) < InitialBest(m)
            && (forall i :: 0 <= i < k ==> e <= RefDistance(sample, refs, m, i))
            && (forall i :: 0 <= i < side ==> e < RefDistance(sample, refs, m, i)))
  {
    if k > 0 {
      ScanInvariant(sample, refs, m, k - 1);
    }
  }

  /** A sample has one first-nearest side at most. */
  lemma FirstNearestUnique(sample: Color, refs: seq<Option<Color>>, m: Metric, s1: int, s2: int)
    requires WellFormed(refs, m) && Calibrated(refs) && |sample| == Channels(m)
    requires FirstNearest(sample, refs, m, s1) && FirstNearest(sample, refs, m, s2)
    ensures s1 == s2
  {
  }

  /**
   * Classification fails exactly when a reference is missing (reporting the
   * first one); with all six present it returns `side` exactly when `side` is
   * the first nearest reference, so ties go to the earlier face.
   */
  lemma ClassifyIsFirstNearest(sample: Color, refs: seq<Option<Color>>, m: Metric, side: int)
    requires WellFormed(refs, m) && |sample| == Channels(m)
    ensures Classify(sample, refs, m).Err? <==> !Calibrated(refs)
    ensures Classify(sample, refs, m).Err? ==>
              var f := Classify(sample, refs, m).error.face;
              f < 6 && refs[f].None? && forall i :: 0 <= i < f ==> refs[i].Some?
    ensures Calibrated(refs) ==> (Classify(sample, refs, m) == Ok(side) <==> FirstNearest(sample, refs, m, side))
  {
    if Calibrated(refs) {
      ScanInvariant(sample, refs, m, 6);
      var r := Classify(sample, refs, m).value;
      assert FirstNearest(sample, refs, m, r);
      if FirstNearest(sample, refs, m, side) {
        FirstNearestUnique(sample, refs, m, r, side);
      }
    }
  }

  /** The getSide loop of either copy, with the reference set passed in. */
  method GetSide(sample: Color, refs: seq<Option<Color>>, m: Metric) returns (r: Result<int, ClassifyError>)
    requires WellFormed(refs, m) && |sample| == Channels(m)
    ensures r == Classify(sample, refs, m)
    ensures r.Err? <==> !Calibrated(refs)
    ensures r.Ok? ==> FirstNearest(sample, refs, m, r.value)
  {
    var bestSide := -1;
    var bestSideE := InitialBest(m);
    for currentSide := 0 to 6
      invariant Scan(sample, refs, m, currentSide) == Ok((bestSide, bestSideE))
    {
      if refs[currentSide].None? {
        r := Err(MissingReference(currentSide));
        ClassifyIsFirstNearest(sample, refs, m, -1);
        return;
      }
      var refRgb := refs[currentSide].value;
      var eTotal := Distance(m, sample, refRgb);
      if eTotal < bestSideE {
        bestSide := currentSide;
        bestSideE := eTotal;
      }
    }
    r := Ok(bestSide);
    ClassifyIsFirstNearest(sample, refs, m, bestSide);
  }

  // ----- unsigned 32-bit readings never reach the sentinel -----

  predicate IsWord(x: int) { 0 <= x < 0x1_0000_0000 }

  predicate WordColor(c: Color) { forall i :: 0 <= i < |c| ==> IsWord(c[i]) }

  lemma SqBelow(x: int, n: int)
    requires -n < x < n
    ensures 0 <= Sq(x) < n * n
  {
    var a := Abs(x);
    assert Sq(x) == a * a;
    assert 0 <= a < n;
    assert a * a <= a * n;
    assert a * n < n * n;
  }

  lemma DistanceBelowBound(m: Metric, a: Color, b: Color)
    requires |a| == Channels(m) && |b| == Channels(m) && WordColor(a) && WordColor(b)
    ensures 0 <= Distance(m, a, b) < InitialBest(m)
  {
    var n := 0x1_0000_0000;
    if m == SquaredEuclidean {
      SqBelow(a[0] - b[0], n);
      SqBelow(a[1] - b[1], n);
      SqBelow(a[2] - b[2], n);
      SqBelow(a[3] - b[3], n);
    }
  }

  /**
   * With every channel an unsigned 32-bit value, every distance is below the
   * initial bound (4 * 2^64 < 10^22 and 3 * 2^32 < 10^11), so a calibrated
   * classification always names one of the six faces and never -1.
   */
  lemma NeverSentinel(sample: Color, refs: seq<Option<Color>>, m: Metric)
    requires WellFormed(refs, m) && Calibrated(refs) && |sample| == Channels(m)
    requires WordColor(sample) && forall i :: 0 <= i < 6 ==> WordColor(refs[i].value)
    ensures Classify(sample, refs, m).Ok? && 0 <= Classify(sample, refs, m).value < 6
  {
    ScanInvariant(sample, refs, m, 6);
    DistanceBelowBound(m, sample, refs[0].value);
    assert RefDistance(sample, refs, m, 0) < InitialBest(m);
    assert Scan(sample, refs, m, 6).value.0 != -1;
  }

  // ----- a reference matches itself -----

  lemma DistanceZero(m: Metric, a: Color, b: Color)
    requires |a| == Channels(m) && |b| == Channels(m)
    ensures Distance(m, a, b) >= 0
    ensures Distance(m, a, b) == 0 <==> a == b
  {
    var n := Channels(m);
    if m == SquaredEuclidean {
      SqZero(a[0] - b[0]);
      SqZero(a[1] - b[1]);
      SqZero(a[2] - b[2]);
      SqZero(a[3] - b[3]);
    }
    if Distance(m, a, b) == 0 {
      assert forall i :: 0 <= i < n ==> a[i] == b[i];
    }
  }

  lemma SqZero(x: int)
    ensures Sq(x) >= 0 && (Sq(x) == 0 <==> x == 0)
  {
    if x > 0 {
      assert x * x >= x;
    } else if x < 0 {
      assert x * x == (-x) * (-x) >= -x;
    }
  }

  /**
   * Classifying reference `i` itself returns `i` exactly when no earlier face
   * has the very same reference colour (an earlier duplicate wins the tie).
   */
  lemma SelfMatch(refs: seq<Option<Color>>, m: Metric, i: nat)
    requires WellFormed(refs, m) && Calibrated(refs) && i < 6
    ensures Classify(refs[i].value, refs, m) == Ok(i) <==> forall j :: 0 <= j < i ==> refs[j].value != refs[i].value
  {
    var c := refs[i].value;
    forall j | 0 <= j < 6
      ensures RefDistance(c, refs, m, j) >= 0 && (RefDistance(c, refs, m, j) == 0 <==> refs[j].value == c)
    {
      DistanceZero(m, c, refs[j].value);
    }
    assert InitialBest(m) > 0;
    ClassifyIsFirstNearest(c, refs, m, i);
    if forall j :: 0 <= j < i ==> refs[j].value != c {
      assert FirstNearest(c, refs, m, i);
    } else {
      var j :| 0 <= j < i && refs[j].value == c;
      assert !FirstNearest(c, refs, m, i);
    }
  }
}
