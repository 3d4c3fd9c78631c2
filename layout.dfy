/** The canonical layout that reset builds, read off concretely: which
    circle is where, and that it satisfies the engine's invariants. */
module Layout {
  import opened Rules
  import opened Invariants

  /** The stacks of the canonical layout: one circle per cell, c1 c2 c3 on
      row 0, c4 c5 c6 on row 1, c7 c8 c9 on row 2. */
  ghost predicate CanonicalGrid(b: Board)
  {
    b.grid == [[["c1"], ["c2"], ["c3"]], [["c4"], ["c5"], ["c6"]], [["c7"], ["c8"], ["c9"]]]
  }

  /** The position map of the canonical layout. */
  ghost predicate CanonicalPositions(b: Board)
  {
    b.positions.Keys == {"c1", "c2", "c3", "c4", "c5", "c6", "c7", "c8", "c9"} &&
    b.positions["c1"] == Position(0, 0) && b.positions["c2"] == Position(0, 1) &&
    b.positions["c3"] == Position(0, 2) && b.positions["c4"] == Position(1, 0) &&
    b.positions["c5"] == Position(1, 1) && b.positions["c6"] == Position(1, 2) &&
    b.positions["c7"] == Position(2, 0) && b.positions["c8"] == Position(2, 1) &&
    b.positions["c9"] == Position(2, 2)
  }

  /** The colour map of the canonical layout: Red, Green, Blue on row 0,
      Blue, Red, Green on row 1, Blue, Green, Red on row 2. */
  ghost predicate CanonicalColors(b: Board)
  {
    b.circles.Keys == {"c1", "c2", "c3", "c4", "c5", "c6", "c7", "c8", "c9"} &&
    b.circles["c1"] == Red && b.circles["c2"] == Green && b.circles["c3"] == Blue &&
    b.circles["c4"] == Blue && b.circles["c5"] == Red && b.circles["c6"] == Green &&
    b.circles["c7"] == Blue && b.circles["c8"] == Green && b.circles["c9"] == Red
  }

  lemma InitialGrid()
    ensures CanonicalGrid(InitialBoard())
  {
    var g := InitialBoard().grid;
    assert g[0] == [["c1"], ["c2"], ["c3"]];
    assert g[1] == [["c4"], ["c5"], ["c6"]];
    assert g[2] == [["c7"], ["c8"], ["c9"]];
  }

  lemma InitialPositionKeys()
    ensures InitialBoard().positions.Keys == {"c1", "c2", "c3", "c4", "c5", "c6", "c7", "c8", "c9"}
  {
  }

  lemma InitialPositions()
    ensures CanonicalPositions(InitialBoard())
  {
    InitialPositionKeys();
  }

  lemma InitialColorKeys()
    ensures InitialBoard().circles.Keys == {"c1", "c2", "c3", "c4", "c5", "c6", "c7", "c8", "c9"}
  {
  }

  lemma InitialColors()
    ensures CanonicalColors(InitialBoard())
  {
    InitialColorKeys();
  }

  /** One cell of the canonical layout holds one circle, recorded at that cell. */
  lemma CanonicalCell(b: Board, r: int, c: int)
    requires CanonicalGrid(b) && CanonicalPositions(b) && CanonicalColors(b)
    requires 0 <= r < ROWS && 0 <= c < COLS
    ensures |b.grid[r][c]| == 1
    ensures Colored(b.grid[r][c], b.circles) && AllAt(b.grid[r][c], b.positions, Position(r, c))
  {
    if r == 0 {
      if c == 0 {} else if c == 1 {} else {}
    } else if r == 1 {
      if c == 0 {} else if c == 1 {} else {}
    } else {
      if c == 0 {} else if c == 1 {} else {}
    }
  }

  /** Every circle of the canonical layout lies, on the board, in the cell
      its position names. */
  lemma CanonicalLocated(b: Board, id: Id)
    requires CanonicalGrid(b) && CanonicalPositions(b)
    requires id in b.positions
    ensures InBounds(b.positions[id].row, b.positions[id].col)
    ensures id in b.grid[b.positions[id].row][b.positions[id].col]
  {
    if id == "c1" {} else if id == "c2" {} else if id == "c3" {}
    else if id == "c4" {} else if id == "c5" {} else if id == "c6" {}
    else if id == "c7" {} else if id == "c8" {} else {}
  }

  /** The canonical layout is consistent and every cell holds one circle. */
  lemma CanonicalConsistent(b: Board)
    requires CanonicalGrid(b) && CanonicalPositions(b) && CanonicalColors(b)
    ensures Consistent(b)
    ensures forall r, c :: 0 <= r < ROWS && 0 <= c < COLS ==> |b.grid[r][c]| == 1
  {
    forall r, c | 0 <= r < ROWS && 0 <= c < COLS
      ensures |b.grid[r][c]| == 1
      ensures Colored(b.grid[r][c], b.circles) && AllAt(b.grid[r][c], b.positions, Position(r, c))
    {
      CanonicalCell(b, r, c);
    }
    forall id | id in b.positions
      ensures InBounds(b.positions[id].row, b.positions[id].col)
      ensures id in b.grid[b.positions[id].row][b.positions[id].col]
    {
      CanonicalLocated(b, id);
    }
  }

  /** The canonical layout's stacks obey the colour table (each holds a
      single circle) and the game is not won (c1 is in column 0). */
  lemma CanonicalValid(b: Board)
    requires CanonicalGrid(b) && CanonicalPositions(b) && CanonicalColors(b)
    ensures Consistent(b) && Stacked(b) && !Won(b)
  {
    CanonicalConsistent(b);
    assert b.positions["c1"].col != COLS - 1;
  }

  /** After reset: the canonical layout, nine circles c1 .. c9, a
      consistent board whose stacks obey the colour table, one circle per
      cell, and the game is not yet won. */
  lemma InitialLayout()
    ensures CanonicalGrid(InitialBoard()) && CanonicalPositions(InitialBoard()) && CanonicalColors(InitialBoard())
    ensures Consistent(InitialBoard()) && Stacked(InitialBoard()) && !Won(InitialBoard())
  {
    InitialGrid();
    InitialPositions();
    InitialColors();
    CanonicalValid(InitialBoard());
  }
}
