/** The board engine as the object the server holds: a grid of stacks, the
    colour and position registries and the move history, updated in place
    by reset, addCircle and move. Each method is proved against the value
    functions of module Rules. */
module Engine {
  import opened Rules
  import opened Invariants
  import opened Layout

  /** What `state()` hands out: the stacks, the colours and the dimensions. */
  datatype Snapshot = Snapshot(grid: seq<seq<seq<Id>>>, circles: map<Id, Color>, rows: int, cols: int)

  class Game {
    var grid: seq<seq<seq<Id>>>
    var circles: map<Id, Color>
    var positions: map<Id, Position>
    var history: seq<Record>

    /** The board the fields describe. */
    function Current(): Board
      reads this
    {
      Board(grid, circles, positions)
    }

    ghost predicate Valid()
      reads this
    {
      Consistent(Current())
    }

    /** A new game starts from the canonical layout. */
    constructor ()
      ensures Valid() && Stacked(Current())
      ensures Current() == InitialBoard() && history == []
    {
      grid, circles, positions, history := [], map[], map[], [];
      new;
      Reset();
    }

    /** Rebuild the nine empty stacks, clear the registries and the history,
        and add the nine circles of the canonical layout, bottom row first. */
    method Reset()
      modifies this
      ensures Valid() && Stacked(Current())
      ensures Current() == InitialBoard() && history == []
    {
      grid := seq(ROWS, _ => seq(COLS, _ => []));
      circles := map[];
      positions := map[];
      history := [];

      AddCircle("c7", Blue, 2, 0);
      AddCircle("c8", Green, 2, 1);
      AddCircle("c9", Red, 2, 2);

      AddCircle("c4", Blue, 1, 0);
      AddCircle("c5", Red, 1, 1);
      AddCircle("c6", Green, 1, 2);

      AddCircle("c1", Red, 0, 0);
      AddCircle("c2", Green, 0, 1);
      AddCircle("c3", Blue, 0, 2);

      InitialLayout();
    }

    /** Record the colour and the position of `id` and push it onto the
        stack at (row, col). The board stays consistent exactly when `id`
        is new (Invariants.PlaceConsistent). */
    method AddCircle(id: Id, color: Color, row: int, col: int)
      requires Shaped(grid) && InBounds(row, col)
      modifies this
      ensures Current() == Place(old(Current()), id, color, row, col)
      ensures history == old(history)
    {
      circles := circles[id := color];
      positions := positions[id := Position(row, col)];
      grid := Pushed(grid, row, col, id);
    }

    /** The read-only snapshot: the live stacks and colours, 3 by 3, and
        every id on the board has a colour in it. */
    function State(): (s: Snapshot)
      reads this
      requires Valid()
      ensures s.rows == ROWS && s.cols == COLS && Shaped(s.grid)
      ensures s.grid == grid && s.circles == circles
      ensures forall r, c :: 0 <= r < ROWS && 0 <= c < COLS ==> Colored(s.grid[r][c], s.circles)
    {
      Snapshot(grid, circles, ROWS, COLS)
    }

    /** Move the circle one cell in direction `dir` at time `now`. An unknown
        id throws before anything is logged; otherwise the attempt is logged,
        and only a valid move changes the board. The colour table is kept
        by every Step (Invariants.StepStacked). */
    method Move(circleId: Id, dir: Direction, now: nat) returns (reply: MoveReply)
      requires Valid()
      modifies this
      ensures Valid()
      ensures Current() == Step(old(Current()), circleId, dir).board
      ensures reply == Step(old(Current()), circleId, dir).reply
      ensures circleId in old(positions) ==>
        history == old(history) + [Attempt(old(Current()), circleId, dir, now)]
      ensures circleId !in old(positions) ==> history == old(history)
    {
      ghost var before := Current();
      if circleId !in positions {
        StepUnknown(before, circleId, dir);
        return NotFound;
      }
      var pos := positions[circleId];
      var toRow, toCol := pos.row, pos.col;
      if dir == Up { toRow := toRow - 1; }
      if dir == Down { toRow := toRow + 1; }
      if dir == Left { toCol := toCol - 1; }
      if dir == Right { toCol := toCol + 1; }
      assert Position(toRow, toCol) == Target(pos, dir);

      var validation := ValidateMove(Current(), circleId, toRow, toCol);
      var message := if validation.Ok? then None else Some(validation.reason);
      history := history + [Record(circleId, pos, Position(toRow, toCol), now, validation.Ok?, message)];

      if validation.Reject? {
        StepRefused(before, circleId, dir, now);
        return Rejected(validation.reason);
      }

      StepAccepted(before, circleId, dir, now);
      Relocate(circleId, Position(toRow, toCol));
      RelocatedConsistent(before, circleId, Position(toRow, toCol));

      var won := CheckWinCondition();
      return Moved(won);
    }

    /** Take `id` off the top of its stack, push it onto the stack at `to`
        and record its new position. */
    method Relocate(id: Id, to: Position)
      requires WellFormed(Current()) && id in positions && InBounds(to.row, to.col)
      requires |grid[positions[id].row][positions[id].col]| > 0
      modifies this`grid, this`positions
      ensures Current() == Relocated(old(Current()), id, to)
    {
      var from := positions[id];
      grid := Popped(grid, from.row, from.col);
      grid := Pushed(grid, to.row, to.col, id);
      positions := positions[id := to];
    }

    /** True when every recorded position is in the last column; stops at
        the first circle that is not. */
    method CheckWinCondition() returns (won: bool)
      ensures won == Won(Current())
    {
      var rest := positions.Keys;
      while rest != {}
        invariant rest <= positions.Keys
        invariant forall id :: id in positions && id !in rest ==> positions[id].col == COLS - 1
        decreases rest
      {
        var id :| id in rest;
        if positions[id].col != COLS - 1 {
          return false;
        }
        rest := rest - {id};
      }
      return true;
    }
  }
}
