/** The board engine's rules on plain values: the grid of stacks, the two
    registries (colour and position), the move validation chain, and the
    effect of one move. The class in module Engine keeps these values in
    fields and is proved against the functions here. */
module Rules {

  /** The board is fixed at 3 rows by 3 columns. */
  const ROWS: int := 3
  const COLS: int := 3

  /** Circle ids are arbitrary strings ("c1" .. "c9" after a reset). */
  type Id = string

  datatype Color = Red | Green | Blue

  datatype Direction = Up | Down | Left | Right

  datatype Position = Position(row: int, col: int)

  datatype Option<T> = None | Some(value: T)

  /** Why a move is refused; Message gives the text the engine reports. */
  datatype Reason = OutOfBounds | CircleNotFound | Diagonal | NotTop | OnRed | OnlyRedOnBlue

  /** The text reported with a refusal. It is never empty, so the
      export's `h.message || ''` writes it out. */
  function Message(r: Reason): (m: string)
    ensures |m| > 0
  {
    match r
    case OutOfBounds => "Out of bounds"
    case CircleNotFound => "Circle not found"
    case Diagonal => "Diagonal movement not allowed"
    case NotTop => "Can only move the TOP circle"
    case OnRed => "Cannot place anything on top of Red"
    case OnlyRedOnBlue => "Only Red can be placed on Blue"
  }

  /** Different reasons are reported with different texts. */
  lemma MessagesDistinct(r: Reason, s: Reason)
    ensures Message(r) == Message(s) <==> r == s
  {
    if r != s {
      assert |Message(r)| != |Message(s)|;
    }
  }

  /** Outcome of validateMove: `{valid: true}` or `{valid: false, message}`. */
  datatype Verdict = Ok | Reject(reason: Reason)

  /** grid[row][col] is a stack of ids: index 0 is the bottom, the last index the top. */
  datatype Board = Board(grid: seq<seq<seq<Id>>>, circles: map<Id, Color>, positions: map<Id, Position>)

  /** What move returns: it throws "Circle not found" for an unknown id
      (NotFound), returns `{success: false, message}` (Rejected) or
      `{success: true, won}` (Moved). */
  datatype MoveReply = NotFound | Rejected(reason: Reason) | Moved(won: bool)

  /** The board after a move together with the reply. */
  datatype Transition = Transition(board: Board, reply: MoveReply)

  /** One entry of the move history; the wall-clock time is an abstract number. */
  datatype Record = Record(circleId: Id, from: Position, to: Position, timestamp: nat,
                           success: bool, message: Option<Reason>)

  predicate InBounds(row: int, col: int)
  {
    0 <= row < ROWS && 0 <= col < COLS
  }

  ghost predicate Shaped(g: seq<seq<seq<Id>>>)
  {
    |g| == ROWS && forall r :: 0 <= r < ROWS ==> |g[r]| == COLS
  }

  /** Every id in the stack has a colour. */
  ghost predicate Colored(s: seq<Id>, circles: map<Id, Color>)
  {
    forall x :: x in s ==> x in circles
  }

  /** Every id in the stack is recorded at position `p`. */
  ghost predicate AllAt(s: seq<Id>, positions: map<Id, Position>, p: Position)
  {
    forall x :: x in s ==> x in positions && positions[x] == p
  }

  predicate NoRepeats(s: seq<Id>)
  {
    forall i, j :: 0 <= i < j < |s| ==> s[i] != s[j]
  }

  /** What the engine needs of a board for its lookups to be defined:
      the grid has its full shape, every recorded position is on the board
      and every id in a stack or in the position map has a colour. */
  ghost predicate WellFormed(b: Board)
  {
    Shaped(b.grid) &&
    b.positions.Keys <= b.circles.Keys &&
    (forall id :: id in b.positions ==> InBounds(b.positions[id].row, b.positions[id].col)) &&
    (forall r, c :: 0 <= r < ROWS && 0 <= c < COLS ==> Colored(b.grid[r][c], b.circles))
  }

  /** The board's invariant: every registered id lies in the stack its
      position names, every id in a stack is registered at that stack's
      cell, and no stack repeats an id. */
  ghost predicate Consistent(b: Board)
  {
    WellFormed(b) &&
    b.positions.Keys == b.circles.Keys &&
    (forall id :: id in b.positions ==> id in b.grid[b.positions[id].row][b.positions[id].col]) &&
    (forall r, c :: 0 <= r < ROWS && 0 <= c < COLS ==>
       AllAt(b.grid[r][c], b.positions, Position(r, c)) && NoRepeats(b.grid[r][c]))
  }

  predicate IsTop(s: seq<Id>, id: Id)
  {
    |s| > 0 && s[|s| - 1] == id
  }

  /** The grid with `id` pushed onto the stack at (row, col). */
  function Pushed(g: seq<seq<seq<Id>>>, row: int, col: int, id: Id): (g': seq<seq<seq<Id>>>)
    requires Shaped(g) && InBounds(row, col)
    ensures Shaped(g')
    ensures g'[row][col] == g[row][col] + [id]
    ensures forall r, c :: 0 <= r < ROWS && 0 <= c < COLS && (r != row || c != col) ==> g'[r][c] == g[r][c]
  {
    g[row := g[row][col := g[row][col] + [id]]]
  }

  /** The grid with the top of the non-empty stack at (row, col) removed. */
  function Popped(g: seq<seq<seq<Id>>>, row: int, col: int): (g': seq<seq<seq<Id>>>)
    requires Shaped(g) && InBounds(row, col) && |g[row][col]| > 0
    ensures Shaped(g')
    ensures g'[row][col] == g[row][col][..|g[row][col]| - 1]
    ensures forall r, c :: 0 <= r < ROWS && 0 <= c < COLS && (r != row || c != col) ==> g'[r][c] == g[r][c]
  {
    g[row := g[row][col := g[row][col][..|g[row][col]| - 1]]]
  }

  /** The board of `reset` before any circle is added: nine empty stacks. */
  function EmptyBoard(): (b: Board)
    ensures Consistent(b)
    ensures forall r, c :: 0 <= r < ROWS && 0 <= c < COLS ==> b.grid[r][c] == []
  {
    Board(seq(ROWS, _ => seq(COLS, _ => [])), map[], map[])
  }

  /** addCircle: record the colour and the position, push onto the stack. */
  function Place(b: Board, id: Id, color: Color, row: int, col: int): (b': Board)
    requires Shaped(b.grid) && InBounds(row, col)
    ensures Shaped(b'.grid)
    ensures b'.circles == b.circles[id := color] && b'.positions == b.positions[id := Position(row, col)]
    ensures IsTop(b'.grid[row][col], id) && b'.grid[row][col][..|b'.grid[row][col]| - 1] == b.grid[row][col]
  {
    Board(Pushed(b.grid, row, col, id), b.circles[id := color], b.positions[id := Position(row, col)])
  }

  /** addCircle touches one stack: the other eight stay as they were. */
  lemma PlaceFrame(b: Board, id: Id, color: Color, row: int, col: int)
    requires Shaped(b.grid) && InBounds(row, col)
    ensures forall r, c :: 0 <= r < ROWS && 0 <= c < COLS && (r != row || c != col) ==>
      Place(b, id, color, row, col).grid[r][c] == b.grid[r][c]
  {
  }

  /** The canonical layout of `reset`, added bottom row first. */
  function InitialBoard(): (b: Board)
    ensures Shaped(b.grid)
  {
    var b := EmptyBoard();
    var b := Place(b, "c7", Blue, 2, 0);
    var b := Place(b, "c8", Green, 2, 1);
    var b := Place(b, "c9", Red, 2, 2);
    var b := Place(b, "c4", Blue, 1, 0);
    var b := Place(b, "c5", Red, 1, 1);
    var b := Place(b, "c6", Green, 1, 2);
    var b := Place(b, "c1", Red, 0, 0);
    var b := Place(b, "c2", Green, 0, 1);
    Place(b, "c3", Blue, 0, 2)
  }

  /** A circle that passes the first four checks of validateMove (bounds,
      existence, no diagonal, top of its stack) reaches the stacking rules. */
  ghost predicate ReachesStacking(b: Board, id: Id, toRow: int, toCol: int)
    requires WellFormed(b)
  {
    InBounds(toRow, toCol) && id in b.positions &&
    (b.positions[id].row == toRow || b.positions[id].col == toCol) &&
    IsTop(b.grid[b.positions[id].row][b.positions[id].col], id)
  }

  /** validateMove: the first failing check decides the reason. */
  function ValidateMove(b: Board, id: Id, toRow: int, toCol: int): (v: Verdict)
    requires WellFormed(b)
    ensures !InBounds(toRow, toCol) ==> v == Reject(OutOfBounds)
    ensures v == Reject(CircleNotFound) <==> InBounds(toRow, toCol) && id !in b.positions
    ensures v == Reject(Diagonal) <==>
      InBounds(toRow, toCol) && id in b.positions &&
      b.positions[id].row != toRow && b.positions[id].col != toCol
    ensures v == Reject(NotTop) <==>
      InBounds(toRow, toCol) && id in b.positions &&
      (b.positions[id].row == toRow || b.positions[id].col == toCol) &&
      !IsTop(b.grid[b.positions[id].row][b.positions[id].col], id)
    ensures v == Reject(OnRed) <==>
      ReachesStacking(b, id, toRow, toCol) && |b.grid[toRow][toCol]| > 0 &&
      b.circles[b.grid[toRow][toCol][|b.grid[toRow][toCol]| - 1]] == Red
    ensures v == Reject(OnlyRedOnBlue) <==>
      ReachesStacking(b, id, toRow, toCol) && |b.grid[toRow][toCol]| > 0 &&
      b.circles[b.grid[toRow][toCol][|b.grid[toRow][toCol]| - 1]] == Blue && b.circles[id] != Red
    ensures v == Ok <==>
      ReachesStacking(b, id, toRow, toCol) &&
      (|b.grid[toRow][toCol]| == 0 ||
       b.circles[b.grid[toRow][toCol][|b.grid[toRow][toCol]| - 1]] == Green ||
       (b.circles[b.grid[toRow][toCol][|b.grid[toRow][toCol]| - 1]] == Blue && b.circles[id] == Red))
  {
    if !InBounds(toRow, toCol) then Reject(OutOfBounds)
    else if id !in b.positions then Reject(CircleNotFound)
    else
      var current := b.positions[id];
      if current.row != toRow && current.col != toCol then Reject(Diagonal)
      else
        var source := b.grid[current.row][current.col];
        if |source| == 0 || source[|source| - 1] != id then Reject(NotTop)
        else
          var moving := b.circles[id];
          var target := b.grid[toRow][toCol];
          if |target| > 0 then
            var below := b.circles[target[|target| - 1]];
            if below == Red then Reject(OnRed)
            else if below == Blue && moving != Red then Reject(OnlyRedOnBlue)
            else assert below == Green || moving == Red; Ok
          else Ok
  }

  /** The cell one step from `p` in direction `d`. */
  function Target(p: Position, d: Direction): (q: Position)
    ensures (q.row == p.row) != (q.col == p.col)
    ensures -1 <= q.row - p.row <= 1 && -1 <= q.col - p.col <= 1
    ensures (d == Up || d == Down) <==> q.col == p.col
    ensures (d == Up || d == Left) <==> q.row + q.col < p.row + p.col
  {
    match d
    case Up => Position(p.row - 1, p.col)
    case Down => Position(p.row + 1, p.col)
    case Left => Position(p.row, p.col - 1)
    case Right => Position(p.row, p.col + 1)
  }

  /** checkWinCondition: every recorded position is in the last column. */
  predicate Won(b: Board): (w: bool)
    ensures w <==> forall p | p in b.positions.Values :: p.col == COLS - 1
  {
    forall id | id in b.positions :: b.positions[id].col == COLS - 1
  }

  /** The history entry `move` logs for a known circle. */
  function Attempt(b: Board, id: Id, dir: Direction, now: nat): (rec: Record)
    requires WellFormed(b) && id in b.positions
    ensures rec.circleId == id && rec.from == b.positions[id] && rec.to == Target(b.positions[id], dir)
    ensures rec.timestamp == now
    ensures rec.success <==> ValidateMove(b, id, rec.to.row, rec.to.col) == Ok
    ensures rec.success <==> rec.message == None
    ensures !rec.success ==> ValidateMove(b, id, rec.to.row, rec.to.col) == Reject(rec.message.value)
  {
    var to := Target(b.positions[id], dir);
    var v := ValidateMove(b, id, to.row, to.col);
    Record(id, b.positions[id], to, now, v.Ok?, if v.Ok? then None else Some(v.reason))
  }

  /** The board after `id` leaves the top of its stack for the top of the
      stack at `to`; colours are untouched and only `id`'s position changes. */
  function Relocated(b: Board, id: Id, to: Position): (b': Board)
    requires Shaped(b.grid) && id in b.positions && InBounds(to.row, to.col)
    requires InBounds(b.positions[id].row, b.positions[id].col)
    requires |b.grid[b.positions[id].row][b.positions[id].col]| > 0
    ensures Shaped(b'.grid) && b'.circles == b.circles && b'.positions == b.positions[id := to]
    ensures var from := b.positions[id];
      var source := b.grid[from.row][from.col][..|b.grid[from.row][from.col]| - 1];
      b'.grid[to.row][to.col] == (if to == from then source else b.grid[to.row][to.col]) + [id] &&
      (to != from ==> b'.grid[from.row][from.col] == source)
    ensures forall r, c ::
      0 <= r < ROWS && 0 <= c < COLS && Position(r, c) != b.positions[id] && Position(r, c) != to ==>
        b'.grid[r][c] == b.grid[r][c]
  {
    var from := b.positions[id];
    Board(Pushed(Popped(b.grid, from.row, from.col), to.row, to.col, id), b.circles, b.positions[id := to])
  }

  /** The board effect and the reply of `move(id, dir)`: an unknown id and a
      refused move leave the board alone, a valid move relocates the circle
      and reports whether the game is now won. */
  function Step(b: Board, id: Id, dir: Direction): (t: Transition)
    requires WellFormed(b)
    ensures WellFormed(t.board)
    ensures t.reply == NotFound <==> id !in b.positions
    ensures !t.reply.Moved? ==> t.board == b
    ensures t.reply.Moved? ==> t.reply.won == Won(t.board)
  {
    if id !in b.positions then Transition(b, NotFound)
    else
      var from := b.positions[id];
      var to := Target(from, dir);
      var v := ValidateMove(b, id, to.row, to.col);
      if v.Reject? then Transition(b, Rejected(v.reason))
      else
        var b' := Relocated(b, id, to);
        Transition(b', Moved(Won(b')))
  }

  /** For a known circle, the reply of a move is the verdict of
      validateMove on its target cell: Moved exactly when that verdict is
      Ok, and a refusal carries the verdict's reason. */
  lemma StepVerdict(b: Board, id: Id, dir: Direction)
    requires WellFormed(b) && id in b.positions
    ensures var t := Step(b, id, dir);
      var to := Target(b.positions[id], dir);
      (t.reply.Moved? <==> ValidateMove(b, id, to.row, to.col) == Ok) &&
      (t.reply.Rejected? ==> ValidateMove(b, id, to.row, to.col) == Reject(t.reply.reason))
  {
  }
}
