# Searay board engine in Dafny

This project models the board engine of the Searay stacking puzzle: the
`Game` class of `backend/src/gameLogic.ts`. The board is a 3 by 3 grid in
which every cell is a stack of circle ids. Index 0 of a stack is its
bottom and the last index is its top. Each circle is Red, Green or Blue.
The engine keeps four pieces of state: the grid, a map from id to colour,
a map from id to position, and an append-only history of move attempts.

A move takes the top circle of a stack one cell up, down, left or right.
`validateMove` decides whether it is allowed, and the first failing check
gives the reason. The checks, in order:
- the target is on the board;
- the circle exists;
- the move is not diagonal;
- the circle is the top of its stack;
- the stacking rules hold: nothing goes on Red, only Red goes on Blue, and
  anything goes on Green.

Every attempt on a known circle is logged, and only a valid one changes
the board. The game is won when every circle is in the last column.

The modules:
- `Rules` (rules.dfy): the board as a value.
  - `ValidateMove` as a function.
  - `Place`: the effect of `addCircle`.
  - `Step`: the effect and the reply of `move`.
  - `Attempt`: the history record `move` logs.
  - `Won`: the win condition.
- `Invariants` (invariants.dfy): what the engine keeps true.
  - Every registered id sits in exactly one stack, at its recorded
    position (`Consistent`).
  - The stacks obey the colour table (`Stacked`).
  - The effect of a valid, a refused and an unknown move.
- `Layout` (layout.dfy): the canonical nine-circle board that `reset`
  builds, and the proof that it is consistent, within the colour table and
  not won.
- `Engine` (engine.dfy): the `Game` class itself. Its fields are updated
  in place by `Reset`, `AddCircle` and `Move`. `CheckWinCondition` is a
  loop with an early exit, and `State` is a read-only snapshot. Each
  method is proved against the value functions of `Rules`.
- `Solution` (solution.dfy): the 23-move winning sequence that
  `frontend/src/solver.ts` plays after a reset. Replayed from the reset
  board, every move succeeds and only the last one wins.
- `Export` (export.dfy): `getCSV`, with the timestamp written as a decimal
  number. Split at newlines, the text gives back the header and one line
  per record. Split at commas, a line gives back its eight columns.

## Model

| member | source | states |
|---|---|---|
| Rules.Pushed | backend/src/gameLogic.ts:161-164 | pushing onto the stack at (row, col) appends the id as its new top and leaves the other eight stacks as they were |
| Rules.Popped | backend/src/gameLogic.ts:159-161 | popping a non-empty stack removes exactly its top and leaves the other eight stacks as they were |
| Rules.EmptyBoard | backend/src/gameLogic.ts:44-49 | reset's first step: nine empty stacks and empty registries, a consistent board |
| Rules.Place | backend/src/gameLogic.ts:70-74 | addCircle: the colour and position maps gain exactly `id`, and `id` becomes the top of the target stack on top of what was there |
| Rules.PlaceFrame | backend/src/gameLogic.ts:73 | addCircle pushes onto one stack only: the other eight stacks stay as they were |
| Rules.InitialBoard | backend/src/gameLogic.ts:42-68 | reset's nine addCircle calls keep the grid 3 by 3; what it holds is stated by Layout.InitialLayout |
| Rules.Message | backend/src/gameLogic.ts:88-121 | every refusal text is non-empty, so the export's `h.message || ''` writes it out |
| Rules.MessagesDistinct | backend/src/gameLogic.ts:88-121 | the six refusal reasons are reported with six different texts |
| Rules.ValidateMove | backend/src/gameLogic.ts:85-129 | first failure wins: out of bounds before the id is looked up, then unknown id, diagonal (only when row and column both differ), not the top of its stack, top of target Red, top of target Blue under a non-Red circle; Ok exactly when the circle reaches the stacking rules and the target is empty, Green-topped, or Blue-topped under a Red circle (each reason as an if-and-only-if) |
| Rules.Target | backend/src/gameLogic.ts:135-141 | the target differs from the position in exactly one coordinate, by one; Up/Down keep the column, Up/Left decrease the coordinate sum |
| Rules.Won | backend/src/gameLogic.ts:171-180 | the win condition over the recorded ids is the same as checkWinCondition's test over the recorded positions: every one of them is in the last column |
| Rules.Relocated | backend/src/gameLogic.ts:159-165 | the pop, push and positions.set of a valid move: the source stack loses its top, the target stack gains the id as its new top, the id's position becomes the target, and the colours and every other stack and position stay as they were |
| Rules.Attempt | backend/src/gameLogic.ts:145-152 | the record logged for a known circle: its id, its old position, the target of the direction, the time, success exactly when validateMove says Ok, and no message exactly on success, the refusal reason otherwise |
| Rules.Step | backend/src/gameLogic.ts:131-169 | move as a value: an unknown id is reported and changes nothing, a refused move changes nothing, and a successful move reports `won` equal to the win condition on the new board |
| Rules.StepVerdict | backend/src/gameLogic.ts:143-157 | for a known circle, move succeeds exactly when validateMove on its target cell says Ok, and a refusal carries validateMove's reason |
| Invariants.MayStackOn | backend/src/gameLogic.ts:113-125 | the colour table read by the colour of the circle that lands: Red may land on anything but Red; Green and Blue may land only on Green |
| Invariants.StackingTable | backend/src/gameLogic.ts:108-128 | past the first four checks, validateMove accepts exactly when the target is empty or its top may carry the moving colour (Red: nothing, Blue: only Red, Green: anything) |
| Invariants.PlaceFresh | backend/src/gameLogic.ts:70-74 | addCircle of a new id keeps the board consistent |
| Invariants.PlaceAgain | backend/src/gameLogic.ts:70-74 | addCircle of an id already on the board breaks consistency (the id would sit in two stacks, or twice in one) |
| Invariants.PlaceConsistent | backend/src/gameLogic.ts:70-74 | on a consistent board, addCircle keeps it consistent if and only if the id is new |
| Invariants.StepEffect | backend/src/gameLogic.ts:159-165 | a successful move pops the circle from the top of its source stack, pushes it onto the in-bounds target stack, sets its position to the target, and changes no other stack, colour or position |
| Invariants.StepRelocates | backend/src/gameLogic.ts:155-165 | every successful move is a relocation of a top circle to another in-bounds cell |
| Invariants.StepUnknown | backend/src/gameLogic.ts:132-133 | move with an unknown id leaves the board unchanged and replies NotFound |
| Invariants.StepRefused | backend/src/gameLogic.ts:143-157 | a refused move leaves the board unchanged, replies with the reason, and logs a failed record carrying it |
| Invariants.StepAccepted | backend/src/gameLogic.ts:143-168 | a valid move logs a successful record without a message and relocates the circle, replying with the win condition of the new board |
| Invariants.RelocatedConsistent | backend/src/gameLogic.ts:159-165 | relocating a top circle to another in-bounds cell keeps every id in exactly one stack, at its recorded position |
| Invariants.RelocatedStacked | backend/src/gameLogic.ts:108-126 | relocating a top circle onto a target the colour table allows keeps every stack within the colour table |
| Invariants.StepConsistent | backend/src/gameLogic.ts:131-169 | every move, valid or not, keeps the board consistent |
| Invariants.StepStacked | backend/src/gameLogic.ts:131-169 | every move keeps every stack within the colour table |
| Invariants.RedOnlyOnTop | backend/src/gameLogic.ts:113-122 | on a board within the colour table a Red circle is only ever the top of its stack, and a Blue circle below the top carries a Red one |
| Invariants.WonByGrid | backend/src/gameLogic.ts:171-180 | on a consistent board the win condition holds exactly when every non-empty stack is in the last column |
| Invariants.ExactlyOnce | backend/src/gameLogic.ts:24-28 | on a consistent board the stacks together hold every registered id exactly once and nothing else (as multisets) |
| Invariants.SameCellTarget | backend/src/gameLogic.ts:95-97 | validateMove does not reject a target equal to the circle's own cell as diagonal: a top circle may 'move' onto itself exactly when it is Green |
| Layout.InitialGrid | backend/src/gameLogic.ts:54-67 | reset leaves c1 c2 c3 on row 0, c4 c5 c6 on row 1 and c7 c8 c9 on row 2, one per stack |
| Layout.InitialPositions | backend/src/gameLogic.ts:54-67 | reset records exactly the nine ids, each at its cell |
| Layout.InitialColors | backend/src/gameLogic.ts:54-67 | reset records exactly the nine ids with their colours |
| Layout.CanonicalConsistent | backend/src/gameLogic.ts:51-67 | the canonical layout is consistent and has exactly one circle per stack |
| Layout.CanonicalValid | backend/src/gameLogic.ts:51-67 | the canonical layout is consistent, within the colour table, and not won |
| Layout.InitialLayout | backend/src/gameLogic.ts:42-68 | reset's board is the canonical layout, consistent, within the colour table, and not won |
| Engine.Game.constructor | backend/src/gameLogic.ts:35-40 | a new game holds reset's board, consistent and within the colour table, with an empty history |
| Engine.Game.Reset | backend/src/gameLogic.ts:42-68 | rebuilds the fields into reset's canonical board, consistent and within the colour table, and empties the history |
| Engine.Game.AddCircle | backend/src/gameLogic.ts:70-74 | the fields become Rules.Place of the old board; the history is untouched |
| Engine.Game.State | backend/src/gameLogic.ts:76-83 | the snapshot is the live stacks and colours with dimensions 3 by 3, and every id in a stack has a colour |
| Engine.Game.Move | backend/src/gameLogic.ts:131-169 | keeps the board consistent; the new board and the reply are those of Rules.Step; a known circle appends exactly Rules.Attempt to the history, an unknown one leaves it unchanged |
| Engine.Game.Relocate | backend/src/gameLogic.ts:159-165 | the pop, push and position update of a valid move: the fields become Rules.Relocated of the old board |
| Engine.Game.CheckWinCondition | backend/src/gameLogic.ts:171-180 | returns true exactly when every recorded position is in the last column (the loop exits early on the first one that is not) |
| Solution.Legal0 | frontend/src/solver.ts:13 | move 1 of the script is legal on the stacks before it: its circle is on top at its origin, the target is on the grid and empty or topped by a colour that may carry it, and it empties the first two columns only if it is the last |
| Solution.Script0 | frontend/src/solver.ts:13 | move 1 of the script is legal and turns the stacks before it into the stacks after it |
| Solution.Legal1 | frontend/src/solver.ts:14 | move 2 of the script is legal on the stacks before it: its circle is on top at its origin, the target is on the grid and empty or topped by a colour that may carry it, and it empties the first two columns only if it is the last |
| Solution.Script1 | frontend/src/solver.ts:14 | move 2 of the script is legal and turns the stacks before it into the stacks after it |
| Solution.Legal2 | frontend/src/solver.ts:15 | move 3 of the script is legal on the stacks before it: its circle is on top at its origin, the target is on the grid and empty or topped by a colour that may carry it, and it empties the first two columns only if it is the last |
| Solution.Script2 | frontend/src/solver.ts:15 | move 3 of the script is legal and turns the stacks before it into the stacks after it |
| Solution.Legal3 | frontend/src/solver.ts:16 | move 4 of the script is legal on the stacks before it: its circle is on top at its origin, the target is on the grid and empty or topped by a colour that may carry it, and it empties the first two columns only if it is the last |
| Solution.Script3 | frontend/src/solver.ts:16 | move 4 of the script is legal and turns the stacks before it into the stacks after it |
| Solution.Legal4 | frontend/src/solver.ts:17 | move 5 of the script is legal on the stacks before it: its circle is on top at its origin, the target is on the grid and empty or topped by a colour that may carry it, and it empties the first two columns only if it is the last |
| Solution.Script4 | frontend/src/solver.ts:17 | move 5 of the script is legal and turns the stacks before it into the stacks after it |
| Solution.Legal5 | frontend/src/solver.ts:18 | move 6 of the script is legal on the stacks before it: its circle is on top at its origin, the target is on the grid and empty or topped by a colour that may carry it, and it empties the first two columns only if it is the last |
| Solution.Script5 | frontend/src/solver.ts:18 | move 6 of the script is legal and turns the stacks before it into the stacks after it |
| Solution.Legal6 | frontend/src/solver.ts:19 | move 7 of the script is legal on the stacks before it: its circle is on top at its origin, the target is on the grid and empty or topped by a colour that may carry it, and it empties the first two columns only if it is the last |
| Solution.Script6 | frontend/src/solver.ts:19 | move 7 of the script is legal and turns the stacks before it into the stacks after it |
| Solution.Legal7 | frontend/src/solver.ts:20 | move 8 of the script is legal on the stacks before it: its circle is on top at its origin, the target is on the grid and empty or topped by a colour that may carry it, and it empties the first two columns only if it is the last |
| Solution.Script7 | frontend/src/solver.ts:20 | move 8 of the script is legal and turns the stacks before it into the stacks after it |
| Solution.Legal8 | frontend/src/solver.ts:21 | move 9 of the script is legal on the stacks before it: its circle is on top at its origin, the target is on the grid and empty or topped by a colour that may carry it, and it empties the first two columns only if it is the last |
| Solution.Script8 | frontend/src/solver.ts:21 | move 9 of the script is legal and turns the stacks before it into the stacks after it |
| Solution.Legal9 | frontend/src/solver.ts:22 | move 10 of the script is legal on the stacks before it: its circle is on top at its origin, the target is on the grid and empty or topped by a colour that may carry it, and it empties the first two columns only if it is the last |
| Solution.Script9 | frontend/src/solver.ts:22 | move 10 of the script is legal and turns the stacks before it into the stacks after it |
| Solution.Legal10 | frontend/src/solver.ts:23 | move 11 of the script is legal on the stacks before it: its circle is on top at its origin, the target is on the grid and empty or topped by a colour that may carry it, and it empties the first two columns only if it is the last |
| Solution.Script10 | frontend/src/solver.ts:23 | move 11 of the script is legal and turns the stacks before it into the stacks after it |
| Solution.Legal11 | frontend/src/solver.ts:24 | move 12 of the script is legal on the stacks before it: its circle is on top at its origin, the target is on the grid and empty or topped by a colour that may carry it, and it empties the first two columns only if it is the last |
| Solution.Script11 | frontend/src/solver.ts:24 | move 12 of the script is legal and turns the stacks before it into the stacks after it |
| Solution.Legal12 | frontend/src/solver.ts:25 | move 13 of the script is legal on the stacks before it: its circle is on top at its origin, the target is on the grid and empty or topped by a colour that may carry it, and it empties the first two columns only if it is the last |
| Solution.Script12 | frontend/src/solver.ts:25 | move 13 of the script is legal and turns the stacks before it into the stacks after it |
| Solution.Legal13 | frontend/src/solver.ts:26 | move 14 of the script is legal on the stacks before it: its circle is on top at its origin, the target is on the grid and empty or topped by a colour that may carry it, and it empties the first two columns only if it is the last |
| Solution.Script13 | frontend/src/solver.ts:26 | move 14 of the script is legal and turns the stacks before it into the stacks after it |
| Solution.Legal14 | frontend/src/solver.ts:27 | move 15 of the script is legal on the stacks before it: its circle is on top at its origin, the target is on the grid and empty or topped by a colour that may carry it, and it empties the first two columns only if it is the last |
| Solution.Script14 | frontend/src/solver.ts:27 | move 15 of the script is legal and turns the stacks before it into the stacks after it |
| Solution.Legal15 | frontend/src/solver.ts:28 | move 16 of the script is legal on the stacks before it: its circle is on top at its origin, the target is on the grid and empty or topped by a colour that may carry it, and it empties the first two columns only if it is the last |
| Solution.Script15 | frontend/src/solver.ts:28 | move 16 of the script is legal and turns the stacks before it into the stacks after it |
| Solution.Legal16 | frontend/src/solver.ts:29 | move 17 of the script is legal on the stacks before it: its circle is on top at its origin, the target is on the grid and empty or topped by a colour that may carry it, and it empties the first two columns only if it is the last |
| Solution.Script16 | frontend/src/solver.ts:29 | move 17 of the script is legal and turns the stacks before it into the stacks after it |
| Solution.Legal17 | frontend/src/solver.ts:30 | move 18 of the script is legal on the stacks before it: its circle is on top at its origin, the target is on the grid and empty or topped by a colour that may carry it, and it empties the first two columns only if it is the last |
| Solution.Script17 | frontend/src/solver.ts:30 | move 18 of the script is legal and turns the stacks before it into the stacks after it |
| Solution.Legal18 | frontend/src/solver.ts:31 | move 19 of the script is legal on the stacks before it: its circle is on top at its origin, the target is on the grid and empty or topped by a colour that may carry it, and it empties the first two columns only if it is the last |
| Solution.Script18 | frontend/src/solver.ts:31 | move 19 of the script is legal and turns the stacks before it into the stacks after it |
| Solution.Legal19 | frontend/src/solver.ts:32 | move 20 of the script is legal on the stacks before it: its circle is on top at its origin, the target is on the grid and empty or topped by a colour that may carry it, and it empties the first two columns only if it is the last |
| Solution.Script19 | frontend/src/solver.ts:32 | move 20 of the script is legal and turns the stacks before it into the stacks after it |
| Solution.Legal20 | frontend/src/solver.ts:33 | move 21 of the script is legal on the stacks before it: its circle is on top at its origin, the target is on the grid and empty or topped by a colour that may carry it, and it empties the first two columns only if it is the last |
| Solution.Script20 | frontend/src/solver.ts:33 | move 21 of the script is legal and turns the stacks before it into the stacks after it |
| Solution.Legal21 | frontend/src/solver.ts:34 | move 22 of the script is legal on the stacks before it: its circle is on top at its origin, the target is on the grid and empty or topped by a colour that may carry it, and it empties the first two columns only if it is the last |
| Solution.Script21 | frontend/src/solver.ts:34 | move 22 of the script is legal and turns the stacks before it into the stacks after it |
| Solution.Legal22 | frontend/src/solver.ts:35 | move 23 of the script is legal on the stacks before it: its circle is on top at its origin, the target is on the grid and empty or topped by a colour that may carry it, and it empties the first two columns only if it is the last |
| Solution.Script22 | frontend/src/solver.ts:35 | move 23 of the script is legal and turns the stacks before it into the stacks after it |
| Solution.LeftEmptyWon | backend/src/gameLogic.ts:171-180 | on a consistent board the game is won exactly when the first two columns are empty |
| Solution.ScriptLegal | frontend/src/solver.ts:12-36 | every one of the 23 scripted moves is legal and turns the stacks before it into the stacks after it |
| Solution.TopMove | backend/src/gameLogic.ts:99-168 | a top circle moving to an in-bounds cell that is empty or whose top may carry it succeeds, keeps the board consistent and the colours, and pops and pushes exactly those two stacks |
| Solution.ScriptedStep | frontend/src/solver.ts:12-36 | on a consistent board with reset's colours and the stacks before move k, move k succeeds, wins exactly when it is the last, and leaves the stacks after it |
| Solution.Replay | frontend/src/solver.ts:45-47 | playing moves in order yields one reply per move and keeps the board well formed |
| Solution.ReplayKeeps | backend/src/gameLogic.ts:131-169 | any sequence of moves keeps the board consistent and within the colour table |
| Solution.SolveFrom | frontend/src/solver.ts:12-36 | from the stacks before move k, the moves from k on all succeed, only the last wins, and they end in the final stacks |
| Solution.CanonicalDyed | backend/src/gameLogic.ts:54-67 | the canonical colours are Red for c1 c5 c9, Blue for c3 c4 c7, Green for c2 c6 c8 |
| Solution.InitialDyed | backend/src/gameLogic.ts:54-67 | reset gives every circle that colour |
| Solution.ResetReady | backend/src/gameLogic.ts:42-68 | reset's board is consistent, within the colour table, with those colours and the stacks before move 1 |
| Solution.ResetWins | frontend/src/solver.ts:12-36 | from reset's board the 23 moves all succeed, only the last one wins, and the board ends with c6 c3 c1, c2 c4 c5 and c8 c7 c9 stacked in the last column |
| Solution.SolutionWins | frontend/src/solver.ts:12-36 | from reset's board (Solution.ResetReady) the 23 moves all succeed, only the last one wins, and the board ends with c6 c3 c1, c2 c4 c5 and c8 c7 c9 stacked in the last column, consistent and within the colour table |
| Export.NatText | backend/src/gameLogic.ts:185 | a natural number is written as a non-empty run of decimal digits |
| Export.IntText | backend/src/gameLogic.ts:185 | an integer is written as digits, with a leading minus sign exactly when it is negative (a target of -1) |
| Export.NatTextRoundTrip | backend/src/gameLogic.ts:185 | reading the decimal digits back gives the number |
| Export.IntTextRoundTrip | backend/src/gameLogic.ts:185 | reading a written integer back gives the integer, negative ones included |
| Export.Fields | backend/src/gameLogic.ts:185 | a line has eight columns |
| Export.Row | backend/src/gameLogic.ts:185 | one line of the export; when the id holds no comma, splitting it at commas gives back its eight columns |
| Export.Rows | backend/src/gameLogic.ts:184-186 | one line per history record, in history order |
| Export.SplitJoin | backend/src/gameLogic.ts:186 | splitting at the separator undoes joining when no part holds it |
| Export.MessagePlain | backend/src/gameLogic.ts:185 | no refusal message holds a comma or a newline |
| Export.HeaderColumns | backend/src/gameLogic.ts:183 | the header names the eight columns and holds no newline |
| Export.RowDecodes | backend/src/gameLogic.ts:185 | split at commas, a line gives back its eight columns and from them the timestamp, the id, both positions, the outcome and the quoted message, when the id holds no comma |
| Export.RowOneLine | backend/src/gameLogic.ts:185 | a line holds no newline unless its id does |
| Export.Csv | backend/src/gameLogic.ts:182-188 | getCSV: the text begins with the header line and its newline, and is exactly that for an empty history |
| Export.CsvLines | backend/src/gameLogic.ts:182-188 | split at newlines, the export is the header line followed by one line per record in history order (an empty history leaves one empty line after the header) |

## Left out

- `backend/src/server.ts`, `frontend/src/api.ts`, `frontend/src/App.tsx` and `frontend/src/components/Grid.tsx` are not part of this model: they are HTTP routing, the HTTP client and the React UI.
- Direction strings: `Direction` is a datatype, so the unrecognised strings the server would pass through (which move to the circle's own cell) are not modelled.
- The async driver of `frontend/src/solver.ts:38-55` is left out: its network calls, delays and `break` on failure. Only its move list is used, by `Solution.SolutionWins`, and `Solution.Replay` plays the moves in order.
- Wall-clock time: `move` takes the time as a parameter `now: nat`.
- Export.Csv: the timestamp column is that number in decimal, not an ISO-8601 date.
- Export.Csv: it is a function of the history and not a method of `Game`.
- Export.RowDecodes and Export.CsvLines: they require ids without a comma (or a newline), because the source writes the id unescaped.
- Engine.Game.AddCircle: it requires an in-bounds cell. The source would set both maps and then fail on the missing row or stack. The engine only calls it from `reset`, with in-bounds cells.
- Engine.Game.Move: its postcondition does not restate that the stacks stay within the colour table. That is proved about the value-level move by `Invariants.StepStacked`, which `Solution.ReplayKeeps` uses.
- Engine.Game.State: the snapshot is a value. The source hands out the live grid array, so the caller could alias it. That aliasing is not modelled.
- Same-cell target: the code's diagonal check fires only when both the row and the column differ, so it does not reject a target equal to the circle's own cell. The model follows the code (`Invariants.SameCellTarget`). `Rules.Target` shows that no direction produces such a target.
- `backend/src/gameLogic.test.ts` is not part of this model. It assumes a 5 by 5 grid and messages this code does not produce.
- Integers are unbounded. The source's numbers are small grid indices, so no overflow arises.
