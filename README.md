# TicTacToe game core in Dafny

A model of the `TicTacToe` class of a console tic-tac-toe game
(`src/Game.cpp`). It covers the following:

- The nine-slot board, which the class mutates in place.
- The round counter that detects a tie.
- The `gameOn` flag.
- The three prompt loops:
  - who moves first,
  - the human player's move,
  - the random player's move.
- The win test over the eight lines.
- The `playGame` turn loop.

The project has four modules:

- `Board`: the board as a `seq<char>` of nine cells. It defines the eight lines, what "three equal cells" and "a line of one mark" mean, and the count of marked cells.
- `Moves`: which console tokens and random draws each prompt loop accepts. There is one selector function per loop. Each returns the value it settles on and how much input it consumed.
- `Session`: `playGame` as a state machine on values.
  - `Turn` is one pass of the loop body.
  - `Loop` is the loop.
  - `Play` is the whole session.
  - Lemmas state what a finished session leaves behind.
- `Game`: the class `TicTacToe`. It has the `slots` array and the `currentRound` and `gameOn` fields, plus one method per source function. Each method is proved equal to its value-level counterpart. `PlayGame`'s final state and announcement are exactly `Play` of its initial state.

Console input is modelled as a sequence of tokens, each either an integer or a read that fails to parse. The random device is modelled as a sequence of unsigned 32-bit draws.

A prompt loop that runs out of tokens or draws returns `None`, where the program would block or loop forever (on a closed console the failed read repeats and the prompt reprints without end; a stalled AI keeps drawing). A session that runs out reports `Unfinished`.

The first draw of every AI move is the one that sets the "thinking" delay. It is consumed but does not choose the slot.

The class's construction is not part of this model: players, placeholders and `boardSize` are defined in headers that are not available. The constructor therefore takes them as parameters. `Valid()` asks for:

- two players with mark `'X'` or `'O'`,
- `1 <= boardSize <= 10`, which is what keeps `slots[AIMove - 1]` on the board.

When the placeholders are pairwise distinct and none is a mark, the constructor also ensures the session invariant `Consistent` (`Session.InitialConsistent`), so `PlayOutcome` applies to `PlayGame` on a new game.

The AI reduces each draw modulo `boardSize` before it tests the range 1..10. So it can only ever pick slots 1..`boardSize - 1`, as `Moves.AIMoveIsFirstAccepted` states.

Taking `boardSize` to be 9 (its value is set in a header that is not part of this model), a board whose only free cell is slot 9 makes it reject every draw (`Moves.AIStallsOnLastSlot`). This is the program's behaviour as written, and the model follows it.

## Model

| member | source | states |
|---|---|---|
| Board.Line | src/Game.cpp:160-171 | the eight lines are three distinct cells each, in increasing order, within the board |
| Board.EqualLineCases | src/Game.cpp:160-171 | "some line has three equal cells" is exactly the disjunction of the eight comparisons the win test makes |
| Board.EqualLineIsMarkLine | src/Game.cpp:158-175 | on a board whose free cells show distinct placeholders, three equal cells on a line is the same as a line of all 'X' or all 'O' |
| Board.NewLineIsMovers | src/Game.cpp:219-225 | if no line was complete before a mark is written, any line complete afterwards consists of that mark, so the winner is the player who just moved |
| Board.PlaceCountsOne | src/Game.cpp:94-96 | writing a mark into a free cell raises the number of marked cells by exactly one |
| Board.NoMarksCountZero | src/Game.cpp:177-188 | a board without marks counts no marks, matching a game that starts at round 0 |
| Board.CountFull | src/Game.cpp:177-188 | nine marked cells is the same as a full board, which is why nine counted rounds mean no free cell is left |
| Board.MarkCount | src/Game.cpp:177-188 | the number of marked cells never exceeds the number of cells |
| Moves.AcceptsFirstMover | src/Game.cpp:74 | the first-mover guard: an integer read that is 1 or 2; FirstMoverIsFirstAccepted is the lemma about it |
| Moves.FirstMover | src/Game.cpp:63-87 | the first-mover answer is player index 0 or 1, and at least one token was consumed |
| Moves.FirstMoverIsFirstAccepted | src/Game.cpp:72-85 | the prompt returns userIn - 1 for the first token that is 1 or 2, having rejected every earlier token; with none it consumes all input and returns nothing |
| Moves.AcceptsMove | src/Game.cpp:110 | the negation of the move loop's guard: a parsed integer in 1..9 whose cell holds neither 'X' nor 'O', the range test guarding the cell read; PlayerMoveIsFirstAccepted is the lemma about it |
| Moves.PlayerMove | src/Game.cpp:103-120 | a returned move is a slot 1..9 whose cell is not marked |
| Moves.PlayerMoveIsFirstAccepted | src/Game.cpp:110-119 | the move prompt returns the first token that is in 1..9 and names an unmarked cell; every earlier token was out of range, unparsable or marked; with none it returns nothing |
| Moves.Roll | src/Game.cpp:137-138 | a draw reduced modulo boardSize; AIRollIsFirstAccepted and AIStallsOnLastSlot bound it by boardSize - 1 |
| Moves.AcceptsRoll | src/Game.cpp:144 | the negation of the do-while guard: a residue in 1..10 whose cell is unmarked; AIRollIsFirstAccepted is the lemma about it |
| Moves.AIRoll | src/Game.cpp:136-144 | a roll accepted by the retry loop names an unmarked slot in 1..9 |
| Moves.AIMove | src/Game.cpp:128-150 | the AI's move is an unmarked slot in 1..9, and the delay draw plus at least one roll were consumed |
| Moves.AIRollIsFirstAccepted | src/Game.cpp:136-144 | the retry loop settles on the first draw whose residue modulo boardSize is in 1..10 and unmarked; that residue is at most boardSize - 1; all earlier draws were rejected |
| Moves.AIMoveIsFirstAccepted | src/Game.cpp:128-150 | after skipping the delay draw, the AI returns draw % boardSize for the first acceptable draw, which is at most boardSize - 1; with none it returns nothing |
| Moves.AIStallsOnLastSlot | src/Game.cpp:137-144 | with boardSize 9 and only slot 9 free, no draw is accepted and the AI never returns a move |
| Session.Turn | src/Game.cpp:219-239 | one pass of the loop body after the move is chosen; TurnTransitions and TurnKeepsConsistent are the lemmas about it |
| Session.Loop | src/Game.cpp:210-248 | the turn loop, from a state and the index of the player to move; LoopOutcome is the lemma about it |
| Session.Play | src/Game.cpp:195-249 | the first-mover prompt followed by the loop; PlayOutcome is the lemma about it and PlayGame is proved equal to it |
| Session.InitialConsistent | src/Game.cpp:177-188 | a new game with distinct placeholders and no marks, round 0 and play on satisfies the invariant that LoopOutcome and PlayOutcome start from |
| Session.NextMove | src/Game.cpp:217 | the chosen move is an unmarked slot 1..9 and consumes at least one token or draw, from the console for a human and from the device for the AI |
| Session.LoopStep | src/Game.cpp:210-239 | one unfolding of the loop: from the state produced by the turn's rules, the loop either continues or ends with that announcement |
| Session.TurnTransitions | src/Game.cpp:219-239 | a completed line is a win even on the ninth move and leaves the counter alone; otherwise the counter rises by one and reaching 9 is a tie; only with neither does the turn pass to (index + 1) % 2; gameOn drops exactly on a win or tie |
| Session.TurnKeepsConsistent | src/Game.cpp:219-239 | a turn on a free cell keeps the counter equal to the number of marks; a win is a line of the mover's mark; a tie leaves a full board with no line |
| Session.LoopOutcome | src/Game.cpp:210-248 | the loop never overwrites a mark; a winner is index 0 or 1 and owns a complete line; a tie is round 9 on a full board with no line; an unfinished loop leaves gameOn as it was |
| Session.PlayOutcome | src/Game.cpp:195-249 | the same for the whole session, starting with the first-mover prompt |
| Game.TicTacToe.DetermineWhoMovesFirst | src/Game.cpp:63-87 | the loop returns what FirstMover specifies |
| Game.TicTacToe.UpdateSlot | src/Game.cpp:94-96 | slot slotToUpdate - 1 takes the player's symbol and no other cell changes |
| Game.TicTacToe.GetPlayerMove | src/Game.cpp:103-120 | the loop, with the source's own guard, returns what PlayerMove specifies on the current board |
| Game.TicTacToe.GetAIMove | src/Game.cpp:128-151 | the loop returns what AIMove specifies on the current board |
| Game.TicTacToe.DetermineWinner | src/Game.cpp:158-175 | the eight comparisons as written; DetermineWinnerIsEqualLine is the lemma about it |
| Game.TicTacToe.DetermineWinnerIsEqualLine | src/Game.cpp:158-175 | the win test is 1 exactly when some line has three equal cells; with distinct placeholders, exactly when 'X' or 'O' fills a line |
| Game.TicTacToe.DetermineTie | src/Game.cpp:182-188 | the counter rises by one and the result is true exactly when it reaches 9 |
| Game.TicTacToe.PlayGame | src/Game.cpp:195-249 | the announcement and the final board, counter and gameOn are exactly those of Play on the initial fields |

## Left out

- Printing: the board display, the title and all messages (src/Game.cpp:13-56 and the output in the prompts and the loop). They have no effect on the state.
- Stream recovery (`cin.fail`, `clear`, `ignore`): a failed read is the token `Garbage`. The model assumes one entry per line, so ignoring the rest of the line drops nothing else.
- Out-of-range integers: a read outside the int range fails and stores a limit value. It is modelled as `Garbage` or as an out-of-range `Num`, and either way it is rejected.
- The thinking delay (src/Game.cpp:132-134): only the draw it consumes is modelled, not the sleep.
- The `DEBUG` blocks: they only print.
- Construction of the class, the `Player` struct and the value of `boardSize`: they are defined in headers that are not part of this model. They are constructor parameters, and `Valid()` holds the assumptions named above.
- Blocking or endless retrying on exhausted input: the model returns `None` or `Unfinished` instead.
- `currentPlayer`: the pointer is not kept, because it is always `players[currentPlayerIndex]`. The method reads that element each turn.
