/** The 23-move winning sequence that the frontend's solver plays after a
    reset, replayed on the model: every move of it succeeds and only the
    last one wins. */
module Solution {
  import opened Rules
  import opened Invariants
  import opened Layout

  /** One scripted move: a circle id and a direction. */
  datatype MoveStep = MoveStep(id: Id, dir: Direction)

  const SOLUTION_MOVES: seq<MoveStep> := [
    MoveStep("c3", Left),
    MoveStep("c6", Up),
    MoveStep("c9", Left),
    MoveStep("c9", Left),
    MoveStep("c8", Right),
    MoveStep("c9", Up),
    MoveStep("c7", Right),
    MoveStep("c7", Right),
    MoveStep("c9", Down),
    MoveStep("c9", Right),
    MoveStep("c9", Right),
    MoveStep("c3", Right),
    MoveStep("c1", Right),
    MoveStep("c1", Right),
    MoveStep("c5", Left),
    MoveStep("c2", Down),
    MoveStep("c2", Right),
    MoveStep("c5", Up),
    MoveStep("c5", Right),
    MoveStep("c4", Right),
    MoveStep("c4", Right),
    MoveStep("c5", Down),
    MoveStep("c5", Right)
  ]

  /** The cell each scripted move starts from. */
  const ORIGINS: seq<Position> := [
    Position(0, 2),
    Position(1, 2),
    Position(2, 2),
    Position(2, 1),
    Position(2, 1),
    Position(2, 0),
    Position(2, 0),
    Position(2, 1),
    Position(1, 0),
    Position(2, 0),
    Position(2, 1),
    Position(0, 1),
    Position(0, 0),
    Position(0, 1),
    Position(1, 1),
    Position(0, 1),
    Position(1, 1),
    Position(1, 0),
    Position(0, 0),
    Position(1, 0),
    Position(1, 1),
    Position(0, 1),
    Position(1, 1)
  ]

  /** The stacks after the last scripted move: every circle in the last
      column, Green at the bottom of each stack, then Blue, then Red. */
  const FINAL_GRID: seq<seq<seq<Id>>> := [[[], [], ["c6", "c3", "c1"]], [[], [], ["c2", "c4", "c5"]], [[], [], ["c8", "c7", "c9"]]]

  /** The stacks before scripted move k (numbered from 0); after the last
      one they are FINAL_GRID. */
  function Stage(k: nat): seq<seq<seq<Id>>>
    requires k <= |SOLUTION_MOVES|
  {
    if k == 0 then [[["c1"], ["c2"], ["c3"]], [["c4"], ["c5"], ["c6"]], [["c7"], ["c8"], ["c9"]]]
    else if k == 1 then [[["c1"], ["c2", "c3"], []], [["c4"], ["c5"], ["c6"]], [["c7"], ["c8"], ["c9"]]]
    else if k == 2 then [[["c1"], ["c2", "c3"], ["c6"]], [["c4"], ["c5"], []], [["c7"], ["c8"], ["c9"]]]
    else if k == 3 then [[["c1"], ["c2", "c3"], ["c6"]], [["c4"], ["c5"], []], [["c7"], ["c8", "c9"], []]]
    else if k == 4 then [[["c1"], ["c2", "c3"], ["c6"]], [["c4"], ["c5"], []], [["c7", "c9"], ["c8"], []]]
    else if k == 5 then [[["c1"], ["c2", "c3"], ["c6"]], [["c4"], ["c5"], []], [["c7", "c9"], [], ["c8"]]]
    else if k == 6 then [[["c1"], ["c2", "c3"], ["c6"]], [["c4", "c9"], ["c5"], []], [["c7"], [], ["c8"]]]
    else if k == 7 then [[["c1"], ["c2", "c3"], ["c6"]], [["c4", "c9"], ["c5"], []], [[], ["c7"], ["c8"]]]
    else if k == 8 then [[["c1"], ["c2", "c3"], ["c6"]], [["c4", "c9"], ["c5"], []], [[], [], ["c8", "c7"]]]
    else if k == 9 then [[["c1"], ["c2", "c3"], ["c6"]], [["c4"], ["c5"], []], [["c9"], [], ["c8", "c7"]]]
    else if k == 10 then [[["c1"], ["c2", "c3"], ["c6"]], [["c4"], ["c5"], []], [[], ["c9"], ["c8", "c7"]]]
    else if k == 11 then [[["c1"], ["c2", "c3"], ["c6"]], [["c4"], ["c5"], []], [[], [], ["c8", "c7", "c9"]]]
    else if k == 12 then [[["c1"], ["c2"], ["c6", "c3"]], [["c4"], ["c5"], []], [[], [], ["c8", "c7", "c9"]]]
    else if k == 13 then [[[], ["c2", "c1"], ["c6", "c3"]], [["c4"], ["c5"], []], [[], [], ["c8", "c7", "c9"]]]
    else if k == 14 then [[[], ["c2"], ["c6", "c3", "c1"]], [["c4"], ["c5"], []], [[], [], ["c8", "c7", "c9"]]]
    else if k == 15 then [[[], ["c2"], ["c6", "c3", "c1"]], [["c4", "c5"], [], []], [[], [], ["c8", "c7", "c9"]]]
    else if k == 16 then [[[], [], ["c6", "c3", "c1"]], [["c4", "c5"], ["c2"], []], [[], [], ["c8", "c7", "c9"]]]
    else if k == 17 then [[[], [], ["c6", "c3", "c1"]], [["c4", "c5"], [], ["c2"]], [[], [], ["c8", "c7", "c9"]]]
    else if k == 18 then [[["c5"], [], ["c6", "c3", "c1"]], [["c4"], [], ["c2"]], [[], [], ["c8", "c7", "c9"]]]
    else if k == 19 then [[[], ["c5"], ["c6", "c3", "c1"]], [["c4"], [], ["c2"]], [[], [], ["c8", "c7", "c9"]]]
    else if k == 20 then [[[], ["c5"], ["c6", "c3", "c1"]], [[], ["c4"], ["c2"]], [[], [], ["c8", "c7", "c9"]]]
    else if k == 21 then [[[], ["c5"], ["c6", "c3", "c1"]], [[], [], ["c2", "c4"]], [[], [], ["c8", "c7", "c9"]]]
    else if k == 22 then [[[], [], ["c6", "c3", "c1"]], [[], ["c5"], ["c2", "c4"]], [[], [], ["c8", "c7", "c9"]]]
    else FINAL_GRID
  }

  /** The colour reset gives each circle. */
  function Hue(id: Id): Color
  {
    if id == "c1" || id == "c5" || id == "c9" then Red
    else if id == "c3" || id == "c4" || id == "c7" then Blue
    else Green
  }

  /** Every circle on the board has the colour reset gave it. */
  ghost predicate Dyed(b: Board)
  {
    forall id | id in b.circles :: b.circles[id] == Hue(id)
  }

  /** Two 3 by 3 grids with the same nine stacks. */
  ghost predicate SameCells(g: seq<seq<seq<Id>>>, h: seq<seq<seq<Id>>>)
  {
    Shaped(g) && Shaped(h) &&
    g[0][0] == h[0][0] && g[0][1] == h[0][1] && g[0][2] == h[0][2] &&
    g[1][0] == h[1][0] && g[1][1] == h[1][1] && g[1][2] == h[1][2] &&
    g[2][0] == h[2][0] && g[2][1] == h[2][1] && g[2][2] == h[2][2]
  }

  lemma SameCellsEqual(g: seq<seq<seq<Id>>>, h: seq<seq<seq<Id>>>)
    requires SameCells(g, h)
    ensures g == h
  {
    assert g[0] == h[0] && g[1] == h[1] && g[2] == h[2];
  }

  /** The first two columns hold no circle. */
  predicate LeftEmpty(g: seq<seq<seq<Id>>>)
    requires Shaped(g)
  {
    g[0][0] == [] && g[0][1] == [] && g[1][0] == [] && g[1][1] == [] && g[2][0] == [] && g[2][1] == []
  }

  /** On a consistent board the game is won exactly when the first two
      columns are empty. */
  lemma LeftEmptyWon(b: Board)
    requires Consistent(b)
    ensures Won(b) <==> LeftEmpty(b.grid)
  {
    WonByGrid(b);
    if LeftEmpty(b.grid) {
      forall r, c | 0 <= r < ROWS && 0 <= c < COLS && |b.grid[r][c]| > 0 ensures c == COLS - 1 {
      }
    }
  }

  /** Scripted move k, read off the stacks alone: its circle is on top at
      its origin, the target cell is on the grid and empty or topped by a
      colour the table allows under it, and only the last move empties
      the first two columns. */
  ghost predicate Legal(k: nat)
    requires k < |SOLUTION_MOVES|
  {
    var m, from := SOLUTION_MOVES[k], ORIGINS[k];
    var to := Target(from, m.dir);
    var g := Stage(k);
    Shaped(g) && Shaped(Stage(k + 1)) && InBounds(from.row, from.col) && InBounds(to.row, to.col) &&
    IsTop(g[from.row][from.col], m.id) &&
    (g[to.row][to.col] == [] || MayStackOn(Hue(g[to.row][to.col][|g[to.row][to.col]| - 1]), Hue(m.id))) &&
    (LeftEmpty(Stage(k + 1)) <==> k == |SOLUTION_MOVES| - 1)
  }

  /** Scripted move k is legal and turns Stage(k) into Stage(k + 1). */
  ghost predicate Scripted(k: nat)
    requires k < |SOLUTION_MOVES|
  {
    var m, from := SOLUTION_MOVES[k], ORIGINS[k];
    var to := Target(from, m.dir);
    Legal(k) && SameCells(Pushed(Popped(Stage(k), from.row, from.col), to.row, to.col, m.id), Stage(k + 1))
  }

  /** Move 1: c3 (Blue) moves Left from (0, 2) onto c2 (Green). */
  lemma Legal0()
    ensures Legal(0)
  {
  }

  lemma Script0()
    ensures Scripted(0)
  {
    Legal0();
  }

  /** Move 2: c6 (Green) moves Up from (1, 2) onto an empty stack. */
  lemma Legal1()
    ensures Legal(1)
  {
  }

  lemma Script1()
    ensures Scripted(1)
  {
    Legal1();
  }

  /** Move 3: c9 (Red) moves Left from (2, 2) onto c8 (Green). */
  lemma Legal2()
    ensures Legal(2)
  {
  }

  lemma Script2()
    ensures Scripted(2)
  {
    Legal2();
  }

  /** Move 4: c9 (Red) moves Left from (2, 1) onto c7 (Blue). */
  lemma Legal3()
    ensures Legal(3)
  {
  }

  lemma Script3()
    ensures Scripted(3)
  {
    Legal3();
  }

  /** Move 5: c8 (Green) moves Right from (2, 1) onto an empty stack. */
  lemma Legal4()
    ensures Legal(4)
  {
  }

  lemma Script4()
    ensures Scripted(4)
  {
    Legal4();
  }

  /** Move 6: c9 (Red) moves Up from (2, 0) onto c4 (Blue). */
  lemma Legal5()
    ensures Legal(5)
  {
  }

  lemma Script5()
    ensures Scripted(5)
  {
    Legal5();
  }

  /** Move 7: c7 (Blue) moves Right from (2, 0) onto an empty stack. */
  lemma Legal6()
    ensures Legal(6)
  {
  }

  lemma Script6()
    ensures Scripted(6)
  {
    Legal6();
  }

  /** Move 8: c7 (Blue) moves Right from (2, 1) onto c8 (Green). */
  lemma Legal7()
    ensures Legal(7)
  {
  }

  lemma Script7()
    ensures Scripted(7)
  {
    Legal7();
  }

  /** Move 9: c9 (Red) moves Down from (1, 0) onto an empty stack. */
  lemma Legal8()
    ensures Legal(8)
  {
  }

  lemma Script8()
    ensures Scripted(8)
  {
    Legal8();
  }

  /** Move 10: c9 (Red) moves Right from (2, 0) onto an empty stack. */
  lemma Legal9()
    ensures Legal(9)
  {
  }

  lemma Script9()
    ensures Scripted(9)
  {
    Legal9();
  }

  /** Move 11: c9 (Red) moves Right from (2, 1) onto c7 (Blue). */
  lemma Legal10()
    ensures Legal(10)
  {
  }

  lemma Script10()
    ensures Scripted(10)
  {
    Legal10();
  }

  /** Move 12: c3 (Blue) moves Right from (0, 1) onto c6 (Green). */
  lemma Legal11()
    ensures Legal(11)
  {
  }

  lemma Script11()
    ensures Scripted(11)
  {
    Legal11();
  }

  /** Move 13: c1 (Red) moves Right from (0, 0) onto c2 (Green). */
  lemma Legal12()
    ensures Legal(12)
  {
  }

  lemma Script12()
    ensures Scripted(12)
  {
    Legal12();
  }

  /** Move 14: c1 (Red) moves Right from (0, 1) onto c3 (Blue). */
  lemma Legal13()
    ensures Legal(13)
  {
  }

  lemma Script13()
    ensures Scripted(13)
  {
    Legal13();
  }

  /** Move 15: c5 (Red) moves Left from (1, 1) onto c4 (Blue). */
  lemma Legal14()
    ensures Legal(14)
  {
  }

  lemma Script14()
    ensures Scripted(14)
  {
    Legal14();
  }

  /** Move 16: c2 (Green) moves Down from (0, 1) onto an empty stack. */
  lemma Legal15()
    ensures Legal(15)
  {
  }

  lemma Script15()
    ensures Scripted(15)
  {
    Legal15();
  }

  /** Move 17: c2 (Green) moves Right from (1, 1) onto an empty stack. */
  lemma Legal16()
    ensures Legal(16)
  {
  }

  lemma Script16()
    ensures Scripted(16)
  {
    Legal16();
  }

  /** Move 18: c5 (Red) moves Up from (1, 0) onto an empty stack. */
  lemma Legal17()
    ensures Legal(17)
  {
  }

  lemma Script17()
    ensures Scripted(17)
  {
    Legal17();
  }

  /** Move 19: c5 (Red) moves Right from (0, 0) onto an empty stack. */
  lemma Legal18()
    ensures Legal(18)
  {
  }

  lemma Script18()
    ensures Scripted(18)
  {
    Legal18();
  }

  /** Move 20: c4 (Blue) moves Right from (1, 0) onto an empty stack. */
  lemma Legal19()
    ensures Legal(19)
  {
  }

  lemma Script19()
    ensures Scripted(19)
  {
    Legal19();
  }

  /** Move 21: c4 (Blue) moves Right from (1, 1) onto c2 (Green). */
  lemma Legal20()
    ensures Legal(20)
  {
  }

  lemma Script20()
    ensures Scripted(20)
  {
    Legal20();
  }

  /** Move 22: c5 (Red) moves Down from (0, 1) onto an empty stack. */
  lemma Legal21()
    ensures Legal(21)
  {
  }

  lemma Script21()
    ensures Scripted(21)
  {
    Legal21();
  }

  /** Move 23: c5 (Red) moves Right from (1, 1) onto c4 (Blue). */
  lemma Legal22()
    ensures Legal(22)
  {
  }

  lemma Script22()
    ensures Scripted(22)
  {
    Legal22();
  }

  /** Every scripted move is legal on the stacks before it. */
  lemma ScriptLegal(k: nat)
    requires k < |SOLUTION_MOVES|
    ensures Scripted(k)
  {
    if k == 0 { Script0(); }
    else if k == 1 { Script1(); }
    else if k == 2 { Script2(); }
    else if k == 3 { Script3(); }
    else if k == 4 { Script4(); }
    else if k == 5 { Script5(); }
    else if k == 6 { Script6(); }
    else if k == 7 { Script7(); }
    else if k == 8 { Script8(); }
    else if k == 9 { Script9(); }
    else if k == 10 { Script10(); }
    else if k == 11 { Script11(); }
    else if k == 12 { Script12(); }
    else if k == 13 { Script13(); }
    else if k == 14 { Script14(); }
    else if k == 15 { Script15(); }
    else if k == 16 { Script16(); }
    else if k == 17 { Script17(); }
    else if k == 18 { Script18(); }
    else if k == 19 { Script19(); }
    else if k == 20 { Script20(); }
    else if k == 21 { Script21(); }
    else { Script22(); }
  }

  /** A circle on top of its stack, moving into an in-bounds cell that is
      empty or whose top the colour table allows, succeeds: the board stays
      consistent, the colours stay, and the two stacks change. */
  lemma TopMove(b: Board, id: Id, dir: Direction, r: int, c: int)
    requires Consistent(b) && 0 <= r < ROWS && 0 <= c < COLS && IsTop(b.grid[r][c], id)
    requires InBounds(Target(Position(r, c), dir).row, Target(Position(r, c), dir).col)
    requires var to := Target(Position(r, c), dir);
      var dst := b.grid[to.row][to.col];
      dst == [] || MayStackOn(b.circles[dst[|dst| - 1]], b.circles[id])
    ensures var t := Step(b, id, dir);
      var to := Target(Position(r, c), dir);
      t.reply == Moved(Won(t.board)) && Consistent(t.board) && t.board.circles == b.circles &&
      t.board.grid == Pushed(Popped(b.grid, r, c), to.row, to.col, id)
  {
    assert b.grid[r][c][|b.grid[r][c]| - 1] in b.grid[r][c];
    assert AllAt(b.grid[r][c], b.positions, Position(r, c));
    var to := Target(Position(r, c), dir);
    StackingTable(b, id, to.row, to.col);
    StepConsistent(b, id, dir);
  }

  /** On a board coloured by Hue whose stacks are those of `g`, a move
      that `g` and Hue allow is allowed by the board's own stacks and
      colours. */
  lemma HueLegal(b: Board, g: seq<seq<seq<Id>>>, id: Id, dir: Direction, from: Position)
    requires WellFormed(b) && Dyed(b) && SameCells(b.grid, g)
    requires InBounds(from.row, from.col) && IsTop(g[from.row][from.col], id)
    requires InBounds(Target(from, dir).row, Target(from, dir).col)
    requires var to := Target(from, dir);
      var dst := g[to.row][to.col];
      dst == [] || MayStackOn(Hue(dst[|dst| - 1]), Hue(id))
    ensures var to := Target(from, dir);
      var dst := b.grid[to.row][to.col];
      IsTop(b.grid[from.row][from.col], id) && (dst == [] || MayStackOn(b.circles[dst[|dst| - 1]], b.circles[id]))
  {
    SameCellsEqual(b.grid, g);
    var to := Target(from, dir);
    var dst := g[to.row][to.col];
    if dst != [] {
      assert dst[|dst| - 1] in dst;
      assert b.circles[dst[|dst| - 1]] == Hue(dst[|dst| - 1]);
    }
    assert g[from.row][from.col][|g[from.row][from.col]| - 1] in g[from.row][from.col];
  }

  /** Moving the top of a stack of `g` turns a board with the stacks of
      `g` into one with the stacks `g` turns into. */
  lemma GridAfter(b: Board, g: seq<seq<seq<Id>>>, id: Id, dir: Direction, from: Position, g2: seq<seq<seq<Id>>>)
    requires WellFormed(b) && SameCells(b.grid, g)
    requires InBounds(from.row, from.col) && |g[from.row][from.col]| > 0
    requires InBounds(Target(from, dir).row, Target(from, dir).col)
    requires SameCells(Pushed(Popped(g, from.row, from.col), Target(from, dir).row, Target(from, dir).col, id), g2)
    ensures Pushed(Popped(b.grid, from.row, from.col), Target(from, dir).row, Target(from, dir).col, id) == g2
  {
    SameCellsEqual(b.grid, g);
    var to := Target(from, dir);
    SameCellsEqual(Pushed(Popped(g, from.row, from.col), to.row, to.col, id), g2);
  }

  /** The same move on a consistent board coloured by Hue whose stacks are
      those of `g`: it succeeds, wins exactly when it empties the first two
      columns, and leaves the stacks of `g2`. */
  lemma HueMove(b: Board, g: seq<seq<seq<Id>>>, id: Id, dir: Direction, from: Position, g2: seq<seq<seq<Id>>>)
    requires Consistent(b) && Dyed(b) && SameCells(b.grid, g)
    requires InBounds(from.row, from.col) && IsTop(g[from.row][from.col], id)
    requires InBounds(Target(from, dir).row, Target(from, dir).col)
    requires var to := Target(from, dir);
      var dst := g[to.row][to.col];
      dst == [] || MayStackOn(Hue(dst[|dst| - 1]), Hue(id))
    requires SameCells(Pushed(Popped(g, from.row, from.col), Target(from, dir).row, Target(from, dir).col, id), g2)
    ensures var t := Step(b, id, dir);
      t.reply == Moved(LeftEmpty(g2)) && Consistent(t.board) && Dyed(t.board) && SameCells(t.board.grid, g2)
  {
    HueLegal(b, g, id, dir, from);
    GridAfter(b, g, id, dir, from, g2);
    TopMove(b, id, dir, from.row, from.col);
    LeftEmptyWon(Step(b, id, dir).board);
  }

  /** On a consistent board with reset's colours and the stacks before
      scripted move k, that move succeeds, wins exactly when it is the
      last, and leaves the stacks after it. */
  lemma ScriptedStep(b: Board, k: nat)
    requires k < |SOLUTION_MOVES| && Consistent(b) && Dyed(b) && SameCells(b.grid, Stage(k))
    ensures var t := Step(b, SOLUTION_MOVES[k].id, SOLUTION_MOVES[k].dir);
      t.reply == Moved(k == |SOLUTION_MOVES| - 1) && Consistent(t.board) && Dyed(t.board) &&
      SameCells(t.board.grid, Stage(k + 1))
  {
    ScriptLegal(k);
    HueMove(b, Stage(k), SOLUTION_MOVES[k].id, SOLUTION_MOVES[k].dir, ORIGINS[k], Stage(k + 1));
  }

  /** Play the moves one after another, collecting the replies. */
  function Replay(b: Board, moves: seq<MoveStep>): (r: (Board, seq<MoveReply>))
    requires WellFormed(b)
    ensures WellFormed(r.0) && |r.1| == |moves|
    decreases |moves|
  {
    if moves == [] then (b, [])
    else
      var t := Step(b, moves[0].id, moves[0].dir);
      var rest := Replay(t.board, moves[1..]);
      (rest.0, [t.reply] + rest.1)
  }

  /** Replaying any moves keeps the board consistent and keeps every
      stack within the colour table. */
  lemma {:induction false} ReplayKeeps(b: Board, moves: seq<MoveStep>)
    requires Consistent(b)
    ensures Consistent(Replay(b, moves).0)
    ensures Stacked(b) ==> Stacked(Replay(b, moves).0)
    decreases |moves|
  {
    if moves != [] {
      var t := Step(b, moves[0].id, moves[0].dir);
      StepConsistent(b, moves[0].id, moves[0].dir);
      if Stacked(b) {
        StepStacked(b, moves[0].id, moves[0].dir);
      }
      ReplayKeeps(t.board, moves[1..]);
    }
  }

  /** Every move succeeded and only the last one won. */
  predicate OnlyLastWins(replies: seq<MoveReply>)
  {
    forall i :: 0 <= i < |replies| ==> replies[i] == Moved(i == |replies| - 1)
  }

  /** A succeeding move that does not win, in front of replies of which
      only the last wins, keeps that so. */
  lemma OnlyLastWinsCons(reply: MoveReply, replies: seq<MoveReply>)
    requires reply == Moved(false) && |replies| > 0 && OnlyLastWins(replies)
    ensures OnlyLastWins([reply] + replies)
  {
    forall i | 0 <= i < |[reply] + replies| ensures ([reply] + replies)[i] == Moved(i == |replies|) {
      if i > 0 {
        assert ([reply] + replies)[i] == replies[i - 1];
      }
    }
  }

  /** From board `b`, the scripted moves from number k on all succeed,
      only the last wins, and they end in the final stacks. */
  ghost predicate Solves(b: Board, k: nat)
    requires WellFormed(b) && k < |SOLUTION_MOVES|
  {
    var r := Replay(b, SOLUTION_MOVES[k..]);
    OnlyLastWins(r.1) && Won(r.0) && SameCells(r.0.grid, FINAL_GRID)
  }

  /** Scripted move k succeeds; either it is the last one, wins and ends
      in the final stacks, or it does not win and the moves after it solve
      the game: then the moves from k on solve it. */
  lemma SolvesStep(b: Board, k: nat)
    requires WellFormed(b) && k < |SOLUTION_MOVES|
    requires var t := Step(b, SOLUTION_MOVES[k].id, SOLUTION_MOVES[k].dir);
      if k + 1 == |SOLUTION_MOVES| then t.reply == Moved(true) && Won(t.board) && SameCells(t.board.grid, FINAL_GRID)
      else t.reply == Moved(false) && Solves(t.board, k + 1)
    ensures Solves(b, k)
  {
    assert SOLUTION_MOVES[k..][1..] == SOLUTION_MOVES[k + 1..];
    var t := Step(b, SOLUTION_MOVES[k].id, SOLUTION_MOVES[k].dir);
    if k + 1 < |SOLUTION_MOVES| {
      OnlyLastWinsCons(t.reply, Replay(t.board, SOLUTION_MOVES[k + 1..]).1);
    }
  }

  /** From the stacks before scripted move k, on a consistent board with
      reset's colours, the remaining moves solve the game. */
  lemma {:induction false} SolveFrom(b: Board, k: nat)
    requires k < |SOLUTION_MOVES| && Consistent(b) && Dyed(b) && SameCells(b.grid, Stage(k))
    ensures Solves(b, k)
    decreases |SOLUTION_MOVES| - k
  {
    var m := SOLUTION_MOVES[k];
    ScriptedStep(b, k);
    var t := Step(b, m.id, m.dir);
    if k + 1 < |SOLUTION_MOVES| {
      SolveFrom(t.board, k + 1);
    } else {
      assert Stage(k + 1) == FINAL_GRID;
    }
    SolvesStep(b, k);
  }

  /** The canonical colours are those of Hue. */
  lemma CanonicalDyed(b: Board)
    requires CanonicalColors(b)
    ensures Dyed(b)
  {
    forall id | id in b.circles ensures b.circles[id] == Hue(id) {
      assert id in {"c1", "c2", "c3", "c4", "c5", "c6", "c7", "c8", "c9"};
    }
  }

  /** Reset gives every circle its colour from Hue. */
  lemma InitialDyed()
    ensures Dyed(InitialBoard())
  {
    InitialColors();
    CanonicalDyed(InitialBoard());
  }

  /** The reset board is where the script starts: consistent, within the
      colour table, coloured by Hue, with the stacks before move 1. */
  lemma ResetReady()
    ensures var b := InitialBoard();
      Consistent(b) && Stacked(b) && Dyed(b) && SameCells(b.grid, Stage(0))
  {
    InitialLayout();
    InitialDyed();
  }

  /** From a board like the reset one (ResetReady), the 23 scripted moves
      all succeed, only the last wins, and the board ends consistent, in
      the final stacks, and with every stack within the colour table. */
  lemma SolutionWins(b: Board)
    requires Consistent(b) && Stacked(b) && Dyed(b) && SameCells(b.grid, Stage(0))
    ensures var r := Replay(b, SOLUTION_MOVES);
      |r.1| == |SOLUTION_MOVES| && OnlyLastWins(r.1) &&
      Won(r.0) && r.0.grid == FINAL_GRID && Consistent(r.0) && Stacked(r.0)
  {
    SolveFrom(b, 0);
    assert SOLUTION_MOVES[0..] == SOLUTION_MOVES;
    ReplayKeeps(b, SOLUTION_MOVES);
    SameCellsEqual(Replay(b, SOLUTION_MOVES).0.grid, FINAL_GRID);
  }

  /** After reset (`b` is reset's board), the 23 scripted moves all
      succeed, only the last one wins, and the board ends in the final
      stacks. */
  lemma ResetWins(b: Board)
    requires b == InitialBoard()
    ensures Consistent(b)
    ensures var r := Replay(b, SOLUTION_MOVES);
      OnlyLastWins(r.1) && Won(r.0) && r.0.grid == FINAL_GRID
  {
    ResetReady();
    SolutionWins(b);
  }
}
