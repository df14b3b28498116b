/** The 3 x 3 board of XandO: positions 1..9 numbered row by row, the eight
    winning lines, and the win test run after every move. */
module Board {

  /** Position of the button in row `r`, column `c` of the grid. */
  function Cell(r: int, c: int): (pos: int)
    requires 0 <= r < 3 && 0 <= c < 3
    ensures 1 <= pos <= 9
  {
    r * 3 + c + 1
  }

  /** Row of a board position (the inverse of `Cell` on its first argument). */
  function RowOf(pos: int): (r: int)
    requires 1 <= pos <= 9
    ensures 0 <= r < 3
  {
    (pos - 1) / 3
  }

  /** Column of a board position (the inverse of `Cell` on its second argument). */
  function ColumnOf(pos: int): (c: int)
    requires 1 <= pos <= 9
    ensures 0 <= c < 3
  {
    (pos - 1) % 3
  }

  /** `RowOf` and `ColumnOf` recover the cell a position came from. */
  lemma CellInverse(r: int, c: int)
    requires 0 <= r < 3 && 0 <= c < 3
    ensures RowOf(Cell(r, c)) == r && ColumnOf(Cell(r, c)) == c
  {
  }

  /** Every position 1..9 comes from a cell, and from one cell only: the
      mapping is a bijection from the grid onto 1..9. */
  lemma CellBijective(pos: int)
    requires 1 <= pos <= 9
    ensures Cell(RowOf(pos), ColumnOf(pos)) == pos
    ensures forall r, c :: 0 <= r < 3 && 0 <= c < 3 && Cell(r, c) == pos ==> r == RowOf(pos) && c == ColumnOf(pos)
  {
    forall r, c | 0 <= r < 3 && 0 <= c < 3 && Cell(r, c) == pos
      ensures r == RowOf(pos) && c == ColumnOf(pos)
    {
      CellInverse(r, c);
    }
  }

  /** Two cells get the same position exactly when they are the same cell. */
  lemma CellInjective(r: int, c: int, r': int, c': int)
    requires 0 <= r < 3 && 0 <= c < 3 && 0 <= r' < 3 && 0 <= c' < 3
    ensures Cell(r, c) == Cell(r', c') <==> r == r' && c == c'
  {
    CellInverse(r, c);
    CellInverse(r', c');
  }

  /** A trio of positions that wins when one player holds all three. */
  datatype Line = Line(a: int, b: int, c: int)

  /** The eight winning lines, in the order the win test tries them:
      three rows, three columns, two diagonals. */
  const Lines: seq<Line> := [
    Line(1, 2, 3), Line(4, 5, 6), Line(7, 8, 9),
    Line(1, 4, 7), Line(2, 5, 8), Line(3, 6, 9),
    Line(1, 5, 9), Line(3, 5, 7)
  ]

  /** All three positions of `t` occur in `moves`. */
  predicate Completes(moves: seq<int>, t: Line)
  {
    t.a in moves && t.b in moves && t.c in moves
  }

  /** `moves` contains all three positions of at least one winning line. */
  predicate Wins(moves: seq<int>)
  {
    exists i :: 0 <= i < |Lines| && Completes(moves, Lines[i])
  }

  /** The win test: tries the eight lines in order and stops at the first one
      that `moves` completes. */
  method CheckWin(moves: seq<int>) returns (won: bool)
    ensures won == Wins(moves)
  {
    for i := 0 to |Lines|
      invariant forall j :: 0 <= j < i ==> !Completes(moves, Lines[j])
    {
      var trio := Lines[i];
      if trio.a in moves && trio.b in moves && trio.c in moves {
        return true;
      }
    }
    return false;
  }

  /** The win test's table read as a disjunction: a list wins exactly when it
      holds all three positions of one of the eight listed trios. */
  lemma WinsByTable(moves: seq<int>)
    ensures Wins(moves) <==>
      || Completes(moves, Line(1, 2, 3)) || Completes(moves, Line(4, 5, 6)) || Completes(moves, Line(7, 8, 9))
      || Completes(moves, Line(1, 4, 7)) || Completes(moves, Line(2, 5, 8)) || Completes(moves, Line(3, 6, 9))
      || Completes(moves, Line(1, 5, 9)) || Completes(moves, Line(3, 5, 7))
  {
    if Wins(moves) {
      var i :| 0 <= i < |Lines| && Completes(moves, Lines[i]);
      assert i in {0, 1, 2, 3, 4, 5, 6, 7};
    }
    if Completes(moves, Line(1, 2, 3)) { assert Completes(moves, Lines[0]); }
    if Completes(moves, Line(4, 5, 6)) { assert Completes(moves, Lines[1]); }
    if Completes(moves, Line(7, 8, 9)) { assert Completes(moves, Lines[2]); }
    if Completes(moves, Line(1, 4, 7)) { assert Completes(moves, Lines[3]); }
    if Completes(moves, Line(2, 5, 8)) { assert Completes(moves, Lines[4]); }
    if Completes(moves, Line(3, 6, 9)) { assert Completes(moves, Lines[5]); }
    if Completes(moves, Line(1, 5, 9)) { assert Completes(moves, Lines[6]); }
    if Completes(moves, Line(3, 5, 7)) { assert Completes(moves, Lines[7]); }
  }

  /** An independent, geometric statement of a win, phrased over the grid
      rather than the table of lines: a full row, a full column, or a full
      diagonal of the grid. */
  predicate RowFull(moves: seq<int>, r: int)
    requires 0 <= r < 3
  {
    forall c :: 0 <= c < 3 ==> Cell(r, c) in moves
  }

  predicate ColumnFull(moves: seq<int>, c: int)
    requires 0 <= c < 3
  {
    forall r :: 0 <= r < 3 ==> Cell(r, c) in moves
  }

  /** The diagonal from the top-left corner: row equals column. */
  predicate DiagonalFull(moves: seq<int>)
  {
    forall r, c :: 0 <= r < 3 && 0 <= c < 3 && r == c ==> Cell(r, c) in moves
  }

  /** The diagonal from the top-right corner: row plus column is 2. */
  predicate AntiDiagonalFull(moves: seq<int>)
  {
    forall r, c :: 0 <= r < 3 && 0 <= c < 3 && r + c == 2 ==> Cell(r, c) in moves
  }

  predicate GeometricWin(moves: seq<int>)
  {
    || (exists r :: 0 <= r < 3 && RowFull(moves, r))
    || (exists c :: 0 <= c < 3 && ColumnFull(moves, c))
    || DiagonalFull(moves)
    || AntiDiagonalFull(moves)
  }

  lemma RowFullCells(moves: seq<int>, r: int)
    requires 0 <= r < 3
    ensures RowFull(moves, r) <==> Cell(r, 0) in moves && Cell(r, 1) in moves && Cell(r, 2) in moves
  {
    if Cell(r, 0) in moves && Cell(r, 1) in moves && Cell(r, 2) in moves {
      forall c | 0 <= c < 3 ensures Cell(r, c) in moves {
        assert c == 0 || c == 1 || c == 2;
      }
    }
  }

  lemma ColumnFullCells(moves: seq<int>, c: int)
    requires 0 <= c < 3
    ensures ColumnFull(moves, c) <==> Cell(0, c) in moves && Cell(1, c) in moves && Cell(2, c) in moves
  {
    if Cell(0, c) in moves && Cell(1, c) in moves && Cell(2, c) in moves {
      forall r | 0 <= r < 3 ensures Cell(r, c) in moves {
        assert r == 0 || r == 1 || r == 2;
      }
    }
  }

  lemma DiagonalsCells(moves: seq<int>)
    ensures DiagonalFull(moves) <==> Completes(moves, Line(1, 5, 9))
    ensures AntiDiagonalFull(moves) <==> Completes(moves, Line(3, 5, 7))
  {
    assert Cell(0, 0) == 1 && Cell(1, 1) == 5 && Cell(2, 2) == 9;
    assert Cell(0, 2) == 3 && Cell(2, 0) == 7;
    if Completes(moves, Line(1, 5, 9)) {
      forall r, c | 0 <= r < 3 && 0 <= c < 3 && r == c ensures Cell(r, c) in moves {
        assert r == 0 || r == 1 || r == 2;
      }
    }
    if Completes(moves, Line(3, 5, 7)) {
      forall r, c | 0 <= r < 3 && 0 <= c < 3 && r + c == 2 ensures Cell(r, c) in moves {
        assert r == 0 || r == 1 || r == 2;
      }
    }
  }

  /** The rows of the grid are the trios 1-2-3, 4-5-6, 7-8-9. */
  lemma RowsAreTrios(moves: seq<int>)
    ensures (exists r :: 0 <= r < 3 && RowFull(moves, r)) <==>
      Completes(moves, Line(1, 2, 3)) || Completes(moves, Line(4, 5, 6)) || Completes(moves, Line(7, 8, 9))
  {
    RowFullCells(moves, 0);
    RowFullCells(moves, 1);
    RowFullCells(moves, 2);
    if r :| 0 <= r < 3 && RowFull(moves, r) {
      assert r == 0 || r == 1 || r == 2;
    }
    if Completes(moves, Line(1, 2, 3)) { assert RowFull(moves, 0); }
    if Completes(moves, Line(4, 5, 6)) { assert RowFull(moves, 1); }
    if Completes(moves, Line(7, 8, 9)) { assert RowFull(moves, 2); }
  }

  /** The columns of the grid are the trios 1-4-7, 2-5-8, 3-6-9. */
  lemma ColumnsAreTrios(moves: seq<int>)
    ensures (exists c :: 0 <= c < 3 && ColumnFull(moves, c)) <==>
      Completes(moves, Line(1, 4, 7)) || Completes(moves, Line(2, 5, 8)) || Completes(moves, Line(3, 6, 9))
  {
    ColumnFullCells(moves, 0);
    ColumnFullCells(moves, 1);
    ColumnFullCells(moves, 2);
    if c :| 0 <= c < 3 && ColumnFull(moves, c) {
      assert c == 0 || c == 1 || c == 2;
    }
    if Completes(moves, Line(1, 4, 7)) { assert ColumnFull(moves, 0); }
    if Completes(moves, Line(2, 5, 8)) { assert ColumnFull(moves, 1); }
    if Completes(moves, Line(3, 6, 9)) { assert ColumnFull(moves, 2); }
  }

  /** The table of eight lines is exactly the set of rows, columns and
      diagonals of the grid. */
  lemma WinsIffGeometric(moves: seq<int>)
    ensures Wins(moves) <==> GeometricWin(moves)
  {
    WinsByTable(moves);
    RowsAreTrios(moves);
    ColumnsAreTrios(moves);
    DiagonalsCells(moves);
  }

  /** Adding moves never undoes a win, and whether a list wins depends only
      on which positions it holds, not on their order. */
  lemma WinsMonotone(moves: seq<int>, more: seq<int>)
    requires forall x :: x in moves ==> x in more
    ensures Wins(moves) ==> Wins(more)
  {
    if Wins(moves) {
      var i :| 0 <= i < |Lines| && Completes(moves, Lines[i]);
      assert Completes(more, Lines[i]);
    }
  }

  /** No position occurs twice. */
  predicate Distinct(s: seq<int>)
  {
    forall i, j :: 0 <= i < j < |s| ==> s[i] != s[j]
  }

  /** Every entry is a board position. */
  predicate OnBoard(s: seq<int>)
  {
    forall i :: 0 <= i < |s| ==> 1 <= s[i] <= 9
  }

  /** Two lists of distinct moves concatenate to a list of distinct moves
      exactly when no position occurs in both. */
  lemma DistinctConcat(a: seq<int>, b: seq<int>)
    ensures Distinct(a + b) <==> Distinct(a) && Distinct(b) && (forall x :: x in a ==> x !in b)
  {
    if Distinct(a + b) {
      forall i, j | 0 <= i < j < |a| ensures a[i] != a[j] {
        assert a[i] == (a + b)[i] && a[j] == (a + b)[j];
      }
      forall i, j | 0 <= i < j < |b| ensures b[i] != b[j] {
        assert b[i] == (a + b)[|a| + i] && b[j] == (a + b)[|a| + j];
      }
      forall i, j | 0 <= i < |a| && 0 <= j < |b| ensures a[i] != b[j] {
        assert a[i] == (a + b)[i] && b[j] == (a + b)[|a| + j];
      }
    }
    if Distinct(a) && Distinct(b) && (forall x :: x in a ==> x !in b) {
      forall i, j | 0 <= i < j < |a + b| ensures (a + b)[i] != (a + b)[j] {
        if j < |a| {
          assert (a + b)[i] == a[i] && (a + b)[j] == a[j];
        } else if i < |a| {
          assert (a + b)[i] == a[i] && (a + b)[j] == b[j - |a|];
          assert a[i] in a;
        } else {
          assert (a + b)[i] == b[i - |a|] && (a + b)[j] == b[j - |a|];
        }
      }
    }
  }

  /** Distinct moves all on the board: there can be at most nine of them. */
  lemma {:induction false} BoardCapacity(s: seq<int>)
    requires Distinct(s) && OnBoard(s)
    ensures |s| <= 9
  {
    DistinctPositions(s, 1, 10);
  }

  /** Distinct integers drawn from `lo..hi-1` number at most `hi - lo`. */
  lemma {:induction false} DistinctPositions(s: seq<int>, lo: int, hi: int)
    requires lo <= hi
    requires Distinct(s)
    requires forall i :: 0 <= i < |s| ==> lo <= s[i] < hi
    ensures |s| <= hi - lo
    decreases hi - lo
  {
    if s != [] {
      // Remove the largest candidate value hi - 1 (if present) and recurse on a narrower range.
      var top := hi - 1;
      if top in s {
        var k :| 0 <= k < |s| && s[k] == top;
        var rest := s[..k] + s[k + 1..];
        assert forall i :: 0 <= i < |rest| ==> rest[i] == if i < k then s[i] else s[i + 1];
        assert Distinct(rest);
        assert forall i :: 0 <= i < |rest| ==> lo <= rest[i] < top;
        DistinctPositions(rest, lo, top);
      } else {
        assert forall i :: 0 <= i < |s| ==> lo <= s[i] < top;
        assert lo < top by { assert lo <= s[0] < top; }
        DistinctPositions(s, lo, top);
      }
    }
  }
}
