/**
 * The cube as the robot sees it: the six faces in the order of the `Face`
 * class and of `faceTable`, the nine tiles of a face, and the 54-character
 * cube-state layout `face*9 + tile - 1` that `scanTile` writes.
 */
module Cube {

  /** The faces, declared in the order of their ordinals U=0, R=1, F=2, D=3, L=4, B=5. */
  datatype Face = U | R | F | D | L | B

  function Ordinal(f: Face): nat
  {
    match f
    case U => 0
    case R => 1
    case F => 2
    case D => 3
    case L => 4
    case B => 5
  }

  function FaceAt(i: nat): Face
    requires i < 6
  {
    [U, R, F, D, L, B][i]
  }

  /** `faceTable`: the letter that names each face in the cube-state string. */
  const FaceTable: seq<char> := ['U', 'R', 'F', 'D', 'L', 'B']

  /** `faceTable[side]` with Python's indexing, where a negative index counts from the end. */
  function FaceLetter(side: int): char
    requires -6 <= side < 6
  {
    if side < 0 then FaceTable[6 + side] else FaceTable[side]
  }

  /** The ordinal and the face letter agree with the face's own name. */
  lemma FaceNumbering(f: Face)
    ensures Ordinal(f) < 6 && FaceAt(Ordinal(f)) == f
    ensures FaceLetter(Ordinal(f)) == ['U', 'R', 'F', 'D', 'L', 'B'][Ordinal(f)]
  {
  }

  /** The sentinel side -1 that getSide may return is labelled as the last face. */
  lemma SentinelLabel()
    ensures FaceLetter(-1) == 'B'
  {
  }

  /** Position of a tile in the cube-state string. */
  function FaceletIndex(face: nat, tile: nat): nat
    requires face < 6 && 1 <= tile <= 9
  {
    face * 9 + tile - 1
  }

  /**
   * `face*9 + tile - 1` maps face 0..5 and tile 1..9 one to one onto 0..53:
   * every index is in range, it determines face and tile, and every position
   * of the string is reached.
   */
  lemma FaceletIndexBijective(face: nat, tile: nat, i: nat)
    requires face < 6 && 1 <= tile <= 9
    ensures FaceletIndex(face, tile) < 54
    ensures FaceletIndex(face, tile) / 9 == face && FaceletIndex(face, tile) % 9 == tile - 1
    ensures i < 54 ==> i / 9 < 6 && FaceletIndex(i / 9, i % 9 + 1) == i
  {
    var k := FaceletIndex(face, tile);
    assert k == face * 9 + (tile - 1) && 0 <= tile - 1 < 9;
    DivModUnique(k, face, tile - 1);
  }

  lemma DivModUnique(k: int, q: int, r: int)
    requires k == q * 9 + r && 0 <= r < 9
    ensures k / 9 == q && k % 9 == r
  {
  }

  /** Two (face, tile) pairs share a position only when they are the same pair. */
  lemma FaceletIndexInjective(f1: nat, t1: nat, f2: nat, t2: nat)
    requires f1 < 6 && 1 <= t1 <= 9 && f2 < 6 && 1 <= t2 <= 9
    requires FaceletIndex(f1, t1) == FaceletIndex(f2, t2)
    ensures f1 == f2 && t1 == t2
  {
    FaceletIndexBijective(f1, t1, 0);
    FaceletIndexBijective(f2, t2, 0);
  }

  /** Row and column of a tile in the 3x3 layout (tile 1 top left, tile 9 bottom right). */
  function Row(tile: nat): nat requires 1 <= tile <= 9 { (tile - 1) / 3 }

  function Col(tile: nat): nat requires 1 <= tile <= 9 { (tile - 1) % 3 }

  predicate IsCentre(tile: nat) requires 1 <= tile <= 9 { Row(tile) == 1 && Col(tile) == 1 }

  predicate IsCorner(tile: nat) requires 1 <= tile <= 9 { Row(tile) != 1 && Col(tile) != 1 }

  predicate IsEdge(tile: nat) requires 1 <= tile <= 9 { (Row(tile) == 1) != (Col(tile) == 1) }

  /** Two tiles share a side in the 3x3 layout. */
  predicate Adjacent(t1: nat, t2: nat)
    requires 1 <= t1 <= 9 && 1 <= t2 <= 9
  {
    (Row(t1) == Row(t2) && (Col(t1) + 1 == Col(t2) || Col(t2) + 1 == Col(t1))) ||
    (Col(t1) == Col(t2) && (Row(t1) + 1 == Row(t2) || Row(t2) + 1 == Row(t1)))
  }
}
