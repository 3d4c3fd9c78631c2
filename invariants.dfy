/** What the board engine keeps true: every id in exactly one stack at its
    recorded position (kept by addCircle for a new id and by every move),
    the stacking discipline of the colours, and the win condition read off
    the grid. */
module Invariants {
  import opened Rules

  /** The colour table of the stacking rules: may `above` lie directly on `below`? */
  predicate MayStackOn(below: Color, above: Color): (ok: bool)
    ensures above == Red ==> (ok <==> below != Red)
    ensures above != Red ==> (ok <==> below == Green)
  {
    match below
    case Red => false
    case Blue => above == Red
    case Green => true
  }

  /** Every adjacent pair of the stack obeys the colour table. */
  ghost predicate StackObeys(s: seq<Id>, circles: map<Id, Color>)
    requires Colored(s, circles)
  {
    forall i, j :: 0 <= i < |s| && j == i + 1 && j < |s| ==> MayStackOn(circles[s[i]], circles[s[j]])
  }

  /** Every stack of the board obeys the colour table. */
  ghost predicate Stacked(b: Board)
    requires WellFormed(b)
  {
    forall r, c :: 0 <= r < ROWS && 0 <= c < COLS ==> StackObeys(b.grid[r][c], b.circles)
  }

  /** The stacking checks of validateMove are exactly the colour table
      applied to the destination's current top. */
  lemma StackingTable(b: Board, id: Id, toRow: int, toCol: int)
    requires WellFormed(b) && ReachesStacking(b, id, toRow, toCol)
    ensures var dst := b.grid[toRow][toCol];
      ValidateMove(b, id, toRow, toCol) == Ok <==>
      (dst == [] || MayStackOn(b.circles[dst[|dst| - 1]], b.circles[id]))
  {
  }

  lemma NoRepeatsAppend(s: seq<Id>, x: Id)
    requires NoRepeats(s) && x !in s
    ensures NoRepeats(s + [x])
  {
    forall i, j | 0 <= i < j < |s + [x]| ensures (s + [x])[i] != (s + [x])[j] {
      if j == |s| {
        assert (s + [x])[i] == s[i];
      }
    }
  }

  /** Below the top of a stack without repeats, the top id does not occur again. */
  lemma TopOnlyOnce(s: seq<Id>)
    requires NoRepeats(s) && |s| > 0
    ensures s[|s| - 1] !in s[..|s| - 1]
    ensures forall x :: x in s && x != s[|s| - 1] ==> x in s[..|s| - 1]
  {
    forall x | x in s && x != s[|s| - 1] ensures x in s[..|s| - 1] {
      var k :| 0 <= k < |s| && s[k] == x;
      assert s[..|s| - 1][k] == x;
    }
  }

  /** After addCircle with a new id each stack still holds only ids
      recorded at its cell, without repeats. */
  lemma PlacedCell(b: Board, id: Id, color: Color, row: int, col: int, r: int, c: int)
    requires Consistent(b) && InBounds(row, col) && id !in b.positions
    requires 0 <= r < ROWS && 0 <= c < COLS
    ensures var b' := Place(b, id, color, row, col);
      Colored(b'.grid[r][c], b'.circles) &&
      AllAt(b'.grid[r][c], b'.positions, Position(r, c)) &&
      NoRepeats(b'.grid[r][c])
  {
    var b' := Place(b, id, color, row, col);
    if r == row && c == col {
      var s := b.grid[row][col];
      assert b'.grid[row][col] == s + [id];
      assert id !in s;
      NoRepeatsAppend(s, id);
    } else {
      assert id !in b.grid[r][c];
      assert b'.grid[r][c] == b.grid[r][c];
    }
  }

  /** addCircle with a new id keeps the board consistent. */
  lemma PlaceFresh(b: Board, id: Id, color: Color, row: int, col: int)
    requires Consistent(b) && InBounds(row, col) && id !in b.positions
    ensures Consistent(Place(b, id, color, row, col))
  {
    var b' := Place(b, id, color, row, col);
    forall r, c | 0 <= r < ROWS && 0 <= c < COLS
      ensures Colored(b'.grid[r][c], b'.circles)
      ensures AllAt(b'.grid[r][c], b'.positions, Position(r, c))
      ensures NoRepeats(b'.grid[r][c])
    {
      PlacedCell(b, id, color, row, col, r, c);
    }
    forall x | x in b'.positions
      ensures x in b'.grid[b'.positions[x].row][b'.positions[x].col]
    {
      if x != id {
        var p := b.positions[x];
        assert x in b.grid[p.row][p.col];
      }
    }
  }

  /** addCircle with an id already on the board breaks consistency: the id
      would lie in two stacks, or twice in one. */
  lemma PlaceAgain(b: Board, id: Id, color: Color, row: int, col: int)
    requires Consistent(b) && InBounds(row, col) && id in b.positions
    ensures !Consistent(Place(b, id, color, row, col))
  {
    var b' := Place(b, id, color, row, col);
    var p := b.positions[id];
    var s := b.grid[row][col];
    assert b'.grid[row][col] == s + [id];
    if p.row == row && p.col == col {
      var k :| 0 <= k < |s| && s[k] == id;
      assert b'.grid[row][col][k] == b'.grid[row][col][|s|];
      assert !NoRepeats(b'.grid[row][col]);
    } else {
      assert id in b'.grid[p.row][p.col];
      assert !AllAt(b'.grid[p.row][p.col], b'.positions, p);
    }
  }

  /** addCircle keeps the board consistent exactly when the id is new. */
  lemma PlaceConsistent(b: Board, id: Id, color: Color, row: int, col: int)
    requires Consistent(b) && InBounds(row, col)
    ensures Consistent(Place(b, id, color, row, col)) <==> id !in b.positions
  {
    if id in b.positions {
      PlaceAgain(b, id, color, row, col);
    } else {
      PlaceFresh(b, id, color, row, col);
    }
  }

  /** What a successful move does to the stacks: the circle was the top of
      its source stack and leaves it, lands on top of the in-bounds target
      stack, and every other stack, the colours and the other positions
      stay as they were. */
  lemma StepEffect(b: Board, id: Id, dir: Direction)
    requires WellFormed(b) && Step(b, id, dir).reply.Moved?
    ensures var b' := Step(b, id, dir).board;
      var from := b.positions[id];
      var to := Target(from, dir);
      InBounds(to.row, to.col) &&
      IsTop(b.grid[from.row][from.col], id) &&
      b'.grid[from.row][from.col] == b.grid[from.row][from.col][..|b.grid[from.row][from.col]| - 1] &&
      b'.grid[to.row][to.col] == b.grid[to.row][to.col] + [id] &&
      (forall r, c ::
         0 <= r < ROWS && 0 <= c < COLS && (r != from.row || c != from.col) && (r != to.row || c != to.col)
         ==> b'.grid[r][c] == b.grid[r][c]) &&
      b'.circles == b.circles &&
      b'.positions == b.positions[id := to]
  {
  }

  /** What a valid move needs of the circle: it is registered, is the top
      of its stack, and the in-bounds destination is another cell. */
  ghost predicate CanRelocate(b: Board, id: Id, to: Position)
    requires WellFormed(b)
  {
    id in b.positions && InBounds(to.row, to.col) && to != b.positions[id] &&
    IsTop(b.grid[b.positions[id].row][b.positions[id].col], id)
  }

  /** Every valid move is a relocation to another cell. */
  lemma StepRelocates(b: Board, id: Id, dir: Direction)
    requires WellFormed(b) && Step(b, id, dir).reply.Moved?
    ensures CanRelocate(b, id, Target(b.positions[id], dir))
    ensures Step(b, id, dir).board == Relocated(b, id, Target(b.positions[id], dir))
  {
  }

  /** move with an unknown id changes nothing and reports it. */
  lemma StepUnknown(b: Board, id: Id, dir: Direction)
    requires WellFormed(b) && id !in b.positions
    ensures Step(b, id, dir) == Transition(b, NotFound)
  {}

  /** A refused move leaves the board alone and logs a failed attempt
      carrying the reason. */
  lemma StepRefused(b: Board, id: Id, dir: Direction, now: nat)
    requires WellFormed(b) && id in b.positions
    requires var to := Target(b.positions[id], dir); ValidateMove(b, id, to.row, to.col).Reject?
    ensures var to := Target(b.positions[id], dir);
      var v := ValidateMove(b, id, to.row, to.col);
      Step(b, id, dir) == Transition(b, Rejected(v.reason)) &&
      Attempt(b, id, dir, now) == Record(id, b.positions[id], to, now, false, Some(v.reason))
  {}

  /** A valid move logs a successful attempt without a message and
      relocates the circle. */
  lemma StepAccepted(b: Board, id: Id, dir: Direction, now: nat)
    requires WellFormed(b) && id in b.positions
    requires var to := Target(b.positions[id], dir); ValidateMove(b, id, to.row, to.col).Ok?
    ensures var to := Target(b.positions[id], dir);
      var b' := Relocated(b, id, to);
      Attempt(b, id, dir, now) == Record(id, b.positions[id], to, now, true, None) &&
      Step(b, id, dir) == Transition(b', Moved(Won(b')))
  {}

  /** After a relocation each stack still holds only ids recorded at its
      cell, without repeats. */
  lemma RelocatedCell(b: Board, id: Id, to: Position, r: int, c: int)
    requires Consistent(b) && CanRelocate(b, id, to)
    requires 0 <= r < ROWS && 0 <= c < COLS
    ensures var b' := Relocated(b, id, to);
      Colored(b'.grid[r][c], b'.circles) &&
      AllAt(b'.grid[r][c], b'.positions, Position(r, c)) &&
      NoRepeats(b'.grid[r][c])
  {
    var b' := Relocated(b, id, to);
    var from := b.positions[id];
    var src := b.grid[from.row][from.col];
    if r == from.row && c == from.col {
      TopOnlyOnce(src);
      assert b'.grid[r][c] == src[..|src| - 1];
    } else if r == to.row && c == to.col {
      var dst := b.grid[to.row][to.col];
      assert id !in dst;
      NoRepeatsAppend(dst, id);
      assert b'.grid[r][c] == dst + [id];
    } else {
      assert id !in b.grid[r][c];
      assert b'.grid[r][c] == b.grid[r][c];
    }
  }

  /** After a relocation every registered id lies in the stack its
      (possibly new) position names. */
  lemma RelocatedLocated(b: Board, id: Id, to: Position, x: Id)
    requires Consistent(b) && CanRelocate(b, id, to)
    requires x in b.positions
    ensures var b' := Relocated(b, id, to);
      x in b'.grid[b'.positions[x].row][b'.positions[x].col]
  {
    var b' := Relocated(b, id, to);
    var from := b.positions[id];
    if x == id {
      assert b'.grid[to.row][to.col] == b.grid[to.row][to.col] + [id];
    } else {
      var p := b.positions[x];
      assert x in b.grid[p.row][p.col];
      if p.row == from.row && p.col == from.col {
        TopOnlyOnce(b.grid[p.row][p.col]);
      }
    }
  }

  lemma RelocatedConsistent(b: Board, id: Id, to: Position)
    requires Consistent(b) && CanRelocate(b, id, to)
    ensures Consistent(Relocated(b, id, to))
  {
    var b' := Relocated(b, id, to);
    forall r, c | 0 <= r < ROWS && 0 <= c < COLS
      ensures Colored(b'.grid[r][c], b'.circles)
      ensures AllAt(b'.grid[r][c], b'.positions, Position(r, c))
      ensures NoRepeats(b'.grid[r][c])
    {
      RelocatedCell(b, id, to, r, c);
    }
    forall x | x in b'.positions
      ensures x in b'.grid[b'.positions[x].row][b'.positions[x].col]
    {
      RelocatedLocated(b, id, to, x);
    }
  }

  /** A relocation onto an empty stack, or onto a top the colour table
      allows, keeps every stack within the colour table. */
  lemma RelocatedStacked(b: Board, id: Id, to: Position)
    requires WellFormed(b) && Stacked(b) && CanRelocate(b, id, to)
    requires var dst := b.grid[to.row][to.col];
      dst == [] || MayStackOn(b.circles[dst[|dst| - 1]], b.circles[id])
    ensures Stacked(Relocated(b, id, to))
  {
    var b' := Relocated(b, id, to);
    var from := b.positions[id];
    var src := b.grid[from.row][from.col];
    var dst := b.grid[to.row][to.col];
    forall r, c | 0 <= r < ROWS && 0 <= c < COLS
      ensures StackObeys(b'.grid[r][c], b'.circles)
    {
      if r == to.row && c == to.col {
        assert b'.grid[r][c] == dst + [id];
        assert StackObeys(dst, b.circles);
      } else if r == from.row && c == from.col {
        assert b'.grid[r][c] == src[..|src| - 1];
        assert StackObeys(src, b.circles);
      }
    }
  }

  /** Every move keeps the board consistent. */
  lemma StepConsistent(b: Board, id: Id, dir: Direction)
    requires Consistent(b)
    ensures Consistent(Step(b, id, dir).board)
  {
    if Step(b, id, dir).reply.Moved? {
      StepRelocates(b, id, dir);
      RelocatedConsistent(b, id, Target(b.positions[id], dir));
    }
  }

  /** Every move keeps every stack within the colour table: nothing ever
      lies on a Red circle and only Red lies on a Blue one. */
  lemma StepStacked(b: Board, id: Id, dir: Direction)
    requires WellFormed(b) && Stacked(b)
    ensures Stacked(Step(b, id, dir).board)
  {
    if Step(b, id, dir).reply.Moved? {
      var to := Target(b.positions[id], dir);
      StepRelocates(b, id, dir);
      StackingTable(b, id, to.row, to.col);
      RelocatedStacked(b, id, to);
    }
  }

  /** In a stack that obeys the colour table a Red circle is always the top. */
  lemma RedOnlyOnTop(b: Board, r: int, c: int, i: int)
    requires WellFormed(b) && Stacked(b)
    requires 0 <= r < ROWS && 0 <= c < COLS && 0 <= i < |b.grid[r][c]| - 1
    ensures b.circles[b.grid[r][c][i]] != Red
    ensures b.circles[b.grid[r][c][i]] == Blue ==> b.circles[b.grid[r][c][i + 1]] == Red
  {
    assert StackObeys(b.grid[r][c], b.circles);
    assert MayStackOn(b.circles[b.grid[r][c][i]], b.circles[b.grid[r][c][i + 1]]);
  }

  /** The win condition read off the grid: on a consistent board every
      circle is in the last column exactly when every non-empty stack is in
      the last column. */
  lemma WonByGrid(b: Board)
    requires Consistent(b)
    ensures Won(b) <==> forall r, c :: 0 <= r < ROWS && 0 <= c < COLS && |b.grid[r][c]| > 0 ==> c == COLS - 1
  {
    if Won(b) {
      forall r, c | 0 <= r < ROWS && 0 <= c < COLS && |b.grid[r][c]| > 0 ensures c == COLS - 1 {
        assert AllAt(b.grid[r][c], b.positions, Position(r, c));
        assert b.grid[r][c][0] in b.grid[r][c];
      }
    }
  }

  /** Every stack of the grid, bottom to top, in row-major order of cells. */
  function Flatten(g: seq<seq<seq<Id>>>): seq<Id>
    requires Shaped(g)
  {
    CellsFrom(g, 0)
  }

  function CellsFrom(g: seq<seq<seq<Id>>>, k: nat): seq<Id>
    requires Shaped(g) && k <= ROWS * COLS
    decreases ROWS * COLS - k
  {
    if k == ROWS * COLS then [] else g[k / COLS][k % COLS] + CellsFrom(g, k + 1)
  }

  lemma {:induction false} CountWithoutRepeats(s: seq<Id>, x: Id)
    requires forall i, j :: 0 <= i < j < |s| ==> s[i] != s[j]
    ensures multiset(s)[x] == if x in s then 1 else 0
  {
    if s != [] {
      assert s == [s[0]] + s[1..];
      CountWithoutRepeats(s[1..], x);
      if x == s[0] {
        assert x !in s[1..] by {
          forall i | 0 <= i < |s[1..]| ensures s[1..][i] != x {
            assert s[1..][i] == s[i + 1];
          }
        }
      }
    }
  }

  /** On a consistent board an id is in the stack at (r, c) exactly when
      it is registered at (r, c); that stack holds it at most once. */
  lemma CellMembers(b: Board, x: Id, r: int, c: int)
    requires Consistent(b) && 0 <= r < ROWS && 0 <= c < COLS
    ensures x in b.grid[r][c] <==> x in b.positions && b.positions[x] == Position(r, c)
    ensures multiset(b.grid[r][c])[x] == if x in b.grid[r][c] then 1 else 0
  {
    assert AllAt(b.grid[r][c], b.positions, Position(r, c)) && NoRepeats(b.grid[r][c]);
    CountWithoutRepeats(b.grid[r][c], x);
  }

  /** Cell (r, c) is number r * COLS + c in row-major order. */
  lemma CellIndex(p: Position, k: nat)
    requires InBounds(p.row, p.col) && k < ROWS * COLS
    ensures p.row * COLS + p.col == k <==> p.row == k / COLS && p.col == k % COLS
  {
  }

  /** How often `x` occurs in the cells from number k on, given how often
      it occurs in each cell: once in the cell it is registered at, never
      elsewhere. */
  lemma {:induction false} CountFrom(b: Board, k: nat, x: Id)
    requires Shaped(b.grid) && k <= ROWS * COLS
    requires x in b.positions ==> InBounds(b.positions[x].row, b.positions[x].col)
    requires forall r, c :: 0 <= r < ROWS && 0 <= c < COLS ==>
      multiset(b.grid[r][c])[x] == if x in b.positions && b.positions[x] == Position(r, c) then 1 else 0
    ensures multiset(CellsFrom(b.grid, k))[x] ==
      if x in b.positions && b.positions[x].row * COLS + b.positions[x].col >= k then 1 else 0
    decreases ROWS * COLS - k
  {
    if k < ROWS * COLS {
      var r, c := k / COLS, k % COLS;
      assert CellsFrom(b.grid, k) == b.grid[r][c] + CellsFrom(b.grid, k + 1);
      assert multiset(CellsFrom(b.grid, k)) == multiset(b.grid[r][c]) + multiset(CellsFrom(b.grid, k + 1));
      CountFrom(b, k + 1, x);
      if x in b.positions {
        CellIndex(b.positions[x], k);
      }
    }
  }

  /** Invariant 1 of the engine: the stacks together hold every registered
      id exactly once and nothing else. */
  lemma ExactlyOnce(b: Board)
    requires Consistent(b)
    ensures multiset(Flatten(b.grid)) == multiset(b.positions.Keys)
  {
    forall x ensures multiset(Flatten(b.grid))[x] == multiset(b.positions.Keys)[x] {
      forall r, c | 0 <= r < ROWS && 0 <= c < COLS
        ensures multiset(b.grid[r][c])[x] == if x in b.positions && b.positions[x] == Position(r, c) then 1 else 0
      {
        CellMembers(b, x, r, c);
      }
      CountFrom(b, 0, x);
    }
  }

  /** validateMove does not reject a target equal to the circle's own cell:
      a Green circle on top of its stack may "move" onto itself, a Red or
      Blue one is refused by the stacking rules. */
  lemma SameCellTarget(b: Board, id: Id)
    requires WellFormed(b) && id in b.positions
    requires IsTop(b.grid[b.positions[id].row][b.positions[id].col], id)
    ensures var p := b.positions[id];
      ValidateMove(b, id, p.row, p.col) == Ok <==> b.circles[id] == Green
  {
  }
}
