/**
 * The move notation solveCube reads: the solver's answer is split on single
 * spaces (Python's `split(' ')`, which keeps empty pieces), each piece's
 * first character names the face, and a two-character piece ending in `2`
 * doubles the turn while one ending in `'` reverses it. The face letter is
 * lower-cased and looked up among uMove, fMove, bMove, rMove, lMove and
 * dMove; any other letter has no move function, and an empty piece has no
 * first character.
 */
module Notation {
  import opened Wrappers
  import opened Cube
  import opened Kinematics

  /** One face move: a call `<face>Move(count, direction)`. */
  datatype Move = Move(face: Face, count: nat, dir: Direction)

  /** Why solveCube stops at the piece with index `index`: no first character, or no move function. */
  datatype SolveError = EmptyToken(index: nat) | UnknownFace(index: nat, letter: char)

  // ----- split(' ') -----

  /** `s.split(' ')`: the pieces between single spaces, empty pieces included. */
  function Split(s: string): (parts: seq<string>)
    ensures |parts| >= 1
    decreases |s|
  {
    if s == [] then [[]]
    else if s[0] == ' ' then [[]] + Split(s[1..])
    else
      var rest := Split(s[1..]);
      [[s[0]] + rest[0]] + rest[1..]
  }

  /** `' '.join(parts)`. */
  function Join(parts: seq<string>): string
    requires |parts| >= 1
    decreases |parts|
  {
    if |parts| == 1 then parts[0] else parts[0] + [' '] + Join(parts[1..])
  }

  predicate SpaceFree(t: string)
  {
    forall i :: 0 <= i < |t| ==> t[i] != ' '
  }

  function Spaces(s: string): nat
    decreases |s|
  {
    if s == [] then 0 else (if s[0] == ' ' then 1 else 0) + Spaces(s[1..])
  }

  /**
   * Splitting loses nothing and keeps no separator: joining the pieces with
   * single spaces gives the string back, no piece holds a space, and there is
   * one piece more than there are spaces.
   */
  lemma {:induction false} SplitJoin(s: string)
    ensures Join(Split(s)) == s
    ensures forall k :: 0 <= k < |Split(s)| ==> SpaceFree(Split(s)[k])
    ensures |Split(s)| == Spaces(s) + 1
    decreases |s|
  {
    if s != [] {
      SplitJoin(s[1..]);
      var rest := Split(s[1..]);
      if s[0] == ' ' {
        assert Split(s) == [[]] + rest;
        assert Split(s)[1..] == rest;
        assert Join(Split(s)) == [] + [' '] + Join(rest);
      } else {
        var parts := Split(s);
        assert parts == [[s[0]] + rest[0]] + rest[1..];
        assert SpaceFree([s[0]] + rest[0]) by {
          assert SpaceFree(rest[0]);
        }
        if |rest| == 1 {
          assert Join(parts) == [s[0]] + rest[0];
        } else {
          assert parts[1..] == rest[1..];
          assert Join(rest) == rest[0] + [' '] + Join(rest[1..]);
        }
        assert s == [s[0]] + s[1..];
      }
    }
  }

  /** Pieces without spaces survive joining and splitting again. */
  lemma {:induction false} JoinSplit(parts: seq<string>)
    requires |parts| >= 1 && forall k :: 0 <= k < |parts| ==> SpaceFree(parts[k])
    ensures Split(Join(parts)) == parts
    decreases |parts|, |parts[0]|
  {
    if |parts| == 1 {
      SplitSpaceFree(parts[0]);
    } else {
      JoinSplit(parts[1..]);
      SplitPrefix(parts[0], Join(parts[1..]));
      assert [parts[0]] + parts[1..] == parts;
    }
  }

  /** A string without spaces is a single piece. */
  lemma {:induction false} SplitSpaceFree(t: string)
    requires SpaceFree(t)
    ensures Split(t) == [t]
    decreases |t|
  {
    if t != [] {
      SplitSpaceFree(t[1..]);
      assert [t[0]] + t[1..] == t;
    }
  }

  /** A space-free piece followed by a space and more text splits off as the first piece. */
  lemma {:induction false} SplitPrefix(t: string, s: string)
    requires SpaceFree(t)
    ensures Split(t + [' '] + s) == [t] + Split(s)
    decreases |t|
  {
    if t == [] {
      assert t + [' '] + s == [' '] + s;
      assert ([' '] + s)[1..] == s;
    } else {
      var w := t + [' '] + s;
      assert w[0] == t[0] && w[1..] == t[1..] + [' '] + s;
      SplitPrefix(t[1..], s);
      assert [t[0]] + t[1..] == t;
    }
  }

  // ----- one piece -----

  /** `str.lower()` on ASCII letters. */
  function Lower(c: char): char
  {
    if 'A' <= c <= 'Z' then (c as int + 32) as char else c
  }

  /** `globals()["{}Move".format(letter)]`: the six move functions, keyed by lower-case letter. */
  function MoveTable(letter: char): Option<Face>
  {
    match letter
    case 'u' => Some(U)
    case 'f' => Some(F)
    case 'b' => Some(B)
    case 'r' => Some(R)
    case 'l' => Some(L)
    case 'd' => Some(D)
    case _ => None
  }

  /** The move one piece asks for; `index` is the piece's place in the split answer. */
  function ParseToken(tok: string, index: nat): Result<Move, SolveError>
  {
    if tok == [] then Err(EmptyToken(index))
    else
      var count := if |tok| == 2 && tok[1] == '2' then 2 else 1;
      var dir := if |tok| == 2 && tok[1] != '2' && tok[1] == '\'' then Prime else Regular;
      match MoveTable(Lower(tok[0]))
      case None => Err(UnknownFace(index, tok[0]))
      case Some(face) => Ok(Move(face, count, dir))
  }

  /**
   * A piece is understood exactly when it is non-empty and starts with one of
   * U, R, F, D, L, B in either case. It is a double turn exactly when it has
   * two characters and the second is `2`, a reversed turn exactly when it has
   * two characters and the second is `'`; anything else after the letter,
   * including a third character, is silently a single regular turn.
   */
  lemma ParseTokenMeaning(tok: string, index: nat)
    ensures ParseToken(tok, index).Ok? <==> tok != [] && tok[0] in "UuRrFfDdLlBb"
    ensures tok == [] ==> ParseToken(tok, index) == Err(EmptyToken(index))
    ensures tok != [] && tok[0] !in "UuRrFfDdLlBb" ==> ParseToken(tok, index) == Err(UnknownFace(index, tok[0]))
    ensures ParseToken(tok, index).Ok? ==>
              var m := ParseToken(tok, index).value;
              && FaceLetter(Ordinal(m.face)) == (if 'a' <= tok[0] <= 'z' then (tok[0] as int - 32) as char else tok[0])
              && (m.count == 2 <==> |tok| == 2 && tok[1] == '2')
              && (m.count == 1 <==> !(|tok| == 2 && tok[1] == '2'))
              && (m.dir == Prime <==> |tok| == 2 && tok[1] == '\'')
  {
  }

  /** The piece the solver writes for a move: the face letter, then `2` or `'` when needed. */
  function Token(m: Move): string
    requires m.count == 1 || (m.count == 2 && m.dir == Regular)
  {
    [FaceLetter(Ordinal(m.face))] + (if m.count == 2 then ['2'] else if m.dir == Prime then ['\''] else [])
  }

  /** Every quarter, half and reversed quarter turn is read back from the piece written for it. */
  lemma TokenRoundTrip(m: Move, index: nat)
    requires m.count == 1 || (m.count == 2 && m.dir == Regular)
    ensures SpaceFree(Token(m)) && Token(m) != []
    ensures ParseToken(Token(m), index) == Ok(m)
  {
  }

  /** Pieces as the solver writes them, and the pieces solveCube reads wrongly or not at all. */
  lemma TokenExamples()
    ensures ParseToken("R2", 0) == Ok(Move(R, 2, Regular))
    ensures ParseToken("F'", 0) == Ok(Move(F, 1, Prime))
    ensures ParseToken("U", 0) == Ok(Move(U, 1, Regular))
    ensures ParseToken("d", 3) == Ok(Move(D, 1, Regular))
    ensures ParseToken("R2'", 0) == Ok(Move(R, 1, Regular))
    ensures ParseToken("X", 4) == Err(UnknownFace(4, 'X'))
    ensures ParseToken("", 2) == Err(EmptyToken(2))
  {
    assert "R2'"[0] == 'R' && |"R2'"| == 3;
  }

  // ----- a whole answer -----

  /** The moves solveCube performs on the pieces from `index` on, and the error it stops with, if any. */
  function ParseFrom(parts: seq<string>, index: nat): (seq<Move>, Option<SolveError>)
    decreases |parts|
  {
    if parts == [] then ([], None)
    else
      match ParseToken(parts[0], index)
      case Err(e) => ([], Some(e))
      case Ok(m) =>
        var rest := ParseFrom(parts[1..], index + 1);
        ([m] + rest.0, rest.1)
  }

  function ParseSolution(solution: string): (seq<Move>, Option<SolveError>)
  {
    ParseFrom(Split(solution), 0)
  }

  /**
   * The moves performed are the pieces before the first bad one, in order:
   * without an error every piece was a move; with one, the error names the
   * first piece that is not.
   */
  lemma {:induction false} ParseFromMeaning(parts: seq<string>, index: nat)
    ensures var (moves, err) := ParseFrom(parts, index);
      && (err.None? ==>
            && |moves| == |parts|
            && forall k :: 0 <= k < |parts| ==> ParseToken(parts[k], index + k) == Ok(moves[k]))
      && (err.Some? ==>
            var j := |moves|;
            && j < |parts|
            && ParseToken(parts[j], index + j) == Err(err.value)
            && forall k :: 0 <= k < j ==> ParseToken(parts[k], index + k) == Ok(moves[k]))
    decreases |parts|
  {
    if parts != [] {
      ParseFromMeaning(parts[1..], index + 1);
    }
  }

  /** Reading pieces `a` then `b` stops in `a` if `a` has a bad piece, and otherwise goes on into `b`. */
  lemma {:induction false} ParseFromAppend(a: seq<string>, b: seq<string>, index: nat)
    ensures ParseFrom(a + b, index) ==
            if ParseFrom(a, index).1.Some? then ParseFrom(a, index)
            else (ParseFrom(a, index).0 + ParseFrom(b, index + |a|).0, ParseFrom(b, index + |a|).1)
    decreases |a|
  {
    if a == [] {
      assert a + b == b;
      var tail := ParseFrom(b, index);
      assert [] + tail.0 == tail.0;
    } else {
      assert (a + b)[0] == a[0] && (a + b)[1..] == a[1..] + b;
      ParseFromAppend(a[1..], b, index + 1);
      match ParseToken(a[0], index)
      case Err(e) =>
        assert ParseFrom(a + b, index) == ([], Some(e)) == ParseFrom(a, index);
      case Ok(m) =>
        var rest := ParseFrom(a[1..], index + 1);
        var tail := ParseFrom(b, index + |a|);
        assert ParseFrom(a, index) == ([m] + rest.0, rest.1);
        assert index + 1 + |a[1..]| == index + |a|;
        if rest.1.None? {
          assert [m] + (rest.0 + tail.0) == ([m] + rest.0) + tail.0;
        }
    }
  }

  /** Reading the pieces one at a time: after `i` understood pieces, a piece that is not understood ends the reading with its error. */
  lemma ParseStops(parts: seq<string>, i: nat)
    requires i < |parts| && ParseFrom(parts[..i], 0).1.None? && ParseToken(parts[i], i).Err?
    ensures ParseFrom(parts, 0) == (ParseFrom(parts[..i], 0).0, Some(ParseToken(parts[i], i).error))
  {
    var a := parts[..i];
    var b := parts[i..];
    var e := ParseToken(parts[i], i).error;
    assert a + b == parts && |a| == i;
    assert b[0] == parts[i];
    assert ParseFrom(b, i) == ([], Some(e));
    StopsInSecond(a, b, 0, e);
  }

  /** Helper for ParseStops: `a` reads cleanly and `b` fails on its first piece. */
  lemma StopsInSecond(a: seq<string>, b: seq<string>, index: nat, e: SolveError)
    requires ParseFrom(a, index).1.None? && ParseFrom(b, index + |a|) == ([], Some(e))
    ensures ParseFrom(a + b, index) == (ParseFrom(a, index).0, Some(e))
  {
    ParseFromAppend(a, b, index);
    var done := ParseFrom(a, index).0;
    assert done + [] == done;
  }

  /** Reading the pieces one at a time: after `i` understood pieces, an understood piece adds its move. */
  lemma ParseContinues(parts: seq<string>, i: nat)
    requires i < |parts| && ParseFrom(parts[..i], 0).1.None? && ParseToken(parts[i], i).Ok?
    ensures ParseFrom(parts[..i + 1], 0) == (ParseFrom(parts[..i], 0).0 + [ParseToken(parts[i], i).value], None)
  {
    var m := ParseToken(parts[i], i).value;
    ParseFromAppend(parts[..i], [parts[i]], 0);
    assert parts[..i] + [parts[i]] == parts[..i + 1];
    assert [parts[i]][1..] == [];
    assert ParseFrom([parts[i]][1..], i + 1) == ([], None);
    assert [m] + [] == [m];
    assert ParseFrom([parts[i]], i) == ([m], None);
  }

  /** The pieces written for a list of moves, joined by single spaces. */
  function Render(moves: seq<Move>): string
    requires |moves| >= 1
    requires forall k :: 0 <= k < |moves| ==> moves[k].count == 1 || (moves[k].count == 2 && moves[k].dir == Regular)
  {
    Join(seq(|moves|, k requires 0 <= k < |moves| => Token(moves[k])))
  }

  /** Any non-empty answer written in the solver's notation is performed move for move, with no error. */
  lemma SolutionRoundTrip(moves: seq<Move>)
    requires |moves| >= 1
    requires forall k :: 0 <= k < |moves| ==> moves[k].count == 1 || (moves[k].count == 2 && moves[k].dir == Regular)
    ensures ParseSolution(Render(moves)) == (moves, None)
  {
    var parts := seq(|moves|, k requires 0 <= k < |moves| => Token(moves[k]));
    forall k | 0 <= k < |parts|
      ensures SpaceFree(parts[k]) && ParseToken(parts[k], k) == Ok(moves[k])
    {
      TokenRoundTrip(moves[k], k);
    }
    JoinSplit(parts);
    assert Render(moves) == Join(parts);
    ParseFromMeaning(parts, 0);
    var (ms, err) := ParseFrom(parts, 0);
    assert ms == moves;
  }

  /** A doubled or a trailing space, or an empty answer, makes an empty piece. */
  lemma EmptyPieceExamples()
    ensures ParseSolution("") == ([], Some(EmptyToken(0)))
    ensures ParseSolution("R  U").1 == Some(EmptyToken(1))
  {
    assert Split("R  U") == ["R", "", "U"] by {
      assert Join(["R", "", "U"]) == "R  U";
      JoinSplit(["R", "", "U"]);
    }
    assert ParseToken("", 1) == Err(EmptyToken(1));
  }

  /** An answer as the solver writes it: a half turn of R, then a reversed quarter turn of F. */
  lemma AnswerExample()
    ensures ParseSolution("R2 F'") == ([Move(R, 2, Regular), Move(F, 1, Prime)], None)
  {
    assert Split("R2 F'") == ["R2", "F'"] by {
      assert Join(["R2", "F'"]) == "R2 F'";
      JoinSplit(["R2", "F'"]);
    }
    assert ParseToken("R2", 0) == Ok(Move(R, 2, Regular));
    assert ParseToken("F'", 1) == Ok(Move(F, 1, Prime));
    var tail: seq<string> := [];
    assert ParseFrom(tail, 2) == ([], None);
    assert ["F'"][1..] == tail && ["F'"][0] == "F'";
    assert [Move(F, 1, Prime)] + [] == [Move(F, 1, Prime)];
    assert ParseFrom(["F'"], 1) == ([Move(F, 1, Prime)], None);
    assert ["R2", "F'"][0] == "R2" && ["R2", "F'"][1..] == ["F'"];
    assert [Move(R, 2, Regular)] + [Move(F, 1, Prime)] == [Move(R, 2, Regular), Move(F, 1, Prime)];
  }
}
