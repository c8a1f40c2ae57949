/** The game session as a state machine on values: one turn places the
    mover's mark, tests for a win, tests for a tie only when there is no win,
    and hands the turn over only when there is neither. The class in module
    Game runs the same machine on its fields and is proved against Play. */
module Session {
  import opened Board
  import opened Moves

  /** A participant: display name, mark, and whether the random player moves. */
  datatype Player = Player(name: string, symbol: char, isAI: bool)

  /** What a session is built with: its two players and the modulus of the AI's roll. */
  datatype Config = Config(players: seq<Player>, boardSize: int)

  /** Two players, each placing 'X' or 'O', and a board size for which the
      AI's cell lookup stays on the board. */
  predicate ConfigOk(cfg: Config) {
    |cfg.players| == 2 && IsMark(cfg.players[0].symbol) && IsMark(cfg.players[1].symbol)
    && 1 <= cfg.boardSize <= 10
  }

  /** The session's fields: the board, the tie counter and the running flag. */
  datatype State = State(board: seq<char>, round: int, gameOn: bool)

  /** What the session announces: a winner (by player index), a tie, or
      nothing (the game is not over when the input runs out). */
  datatype Outcome = Won(winner: nat) | Tied | Unfinished

  /** The state a session is in between turns: free cells distinct, and while
      play goes on the tie counter equals the number of marks and no line is
      complete. */
  predicate Consistent(st: State) {
    |st.board| == 9 && PlaceholdersDistinct(st.board)
    && (st.gameOn ==> MarkCount(st.board) == st.round && !HasEqualLine(st.board))
  }

  /** A new game, showing distinct placeholders and no mark, with no round
      counted and play on, is consistent: no line can be complete because
      its three cells show three different characters. */
  lemma InitialConsistent(placeholders: seq<char>)
    requires |placeholders| == 9 && PlaceholdersDistinct(placeholders)
    requires forall i :: 0 <= i < 9 ==> !IsMark(placeholders[i])
    ensures Consistent(State(placeholders, 0, true))
  {
    NoMarksCountZero(placeholders);
    forall k: nat | k < 8 ensures !LineEqual(placeholders, k) {
      assert Line(k).0 != Line(k).1;
    }
  }

  /** One pass of the game loop after the move is chosen: the new state, the
      index of the next player and the announcement. */
  function Turn(cfg: Config, st: State, index: nat, slot: int): (State, nat, Outcome)
    requires ConfigOk(cfg) && |st.board| == 9 && index < 2 && 1 <= slot <= 9
  {
    var b := st.board[slot - 1 := cfg.players[index].symbol];
    if HasEqualLine(b) then (st.(board := b, gameOn := false), index, Won(index))
    else if st.round + 1 == 9 then (st.(board := b, round := st.round + 1, gameOn := false), index, Tied)
    else (st.(board := b, round := st.round + 1), (index + 1) % 2, Unfinished)
  }

  /** The move the current player picks, with the tokens and draws it consumed. */
  function NextMove(cfg: Config, b: seq<char>, index: nat, input: seq<Token>, draws: seq<Draw>)
    : (r: (Option<int>, nat, nat))
    requires ConfigOk(cfg) && |b| == 9 && index < 2
    ensures r.1 <= |input| && r.2 <= |draws|
    ensures r.0.Some? ==> 1 <= r.0.value <= 9 && !IsMark(b[r.0.value - 1]) && 1 <= r.1 + r.2
  {
    if cfg.players[index].isAI then
      var (m, n) := AIMove(b, cfg.boardSize, draws);
      (m, 0, n)
    else
      var (m, n) := PlayerMove(b, input);
      (m, n, 0)
  }

  /** The game loop from state st with player index to move. */
  function Loop(cfg: Config, st: State, index: nat, input: seq<Token>, draws: seq<Draw>): (Outcome, State)
    requires ConfigOk(cfg) && |st.board| == 9 && index < 2
    decreases |input| + |draws|
  {
    if !st.gameOn then (Unfinished, st)
    else
      var (move, usedIn, usedDr) := NextMove(cfg, st.board, index, input, draws);
      if move.None? then (Unfinished, st)
      else
        var (st', index', outcome) := Turn(cfg, st, index, move.value);
        if !st'.gameOn then (outcome, st')
        else Loop(cfg, st', index', input[usedIn..], draws[usedDr..])
  }

  /** One unfolding of the game loop, for a running state whose player picks
      move: whatever state, next index and announcement follow the turn's
      rules are what the loop continues from or ends with. */
  lemma LoopStep(cfg: Config, st: State, index: nat, input: seq<Token>, draws: seq<Draw>,
                 move: int, usedIn: nat, usedDr: nat, won: bool, st': State, index': nat, outcome: Outcome)
    requires ConfigOk(cfg) && |st.board| == 9 && index < 2 && st.gameOn
    requires NextMove(cfg, st.board, index, input, draws) == (Some(move), usedIn, usedDr)
    requires won == HasEqualLine(st.board[move - 1 := cfg.players[index].symbol])
    requires st'.board == st.board[move - 1 := cfg.players[index].symbol]
    requires won ==> st'.round == st.round && !st'.gameOn && index' == index && outcome == Won(index)
    requires !won ==> st'.round == st.round + 1 && (st'.gameOn <==> st'.round != 9)
                      && index' == (if st'.gameOn then (index + 1) % 2 else index)
                      && outcome == (if st'.gameOn then Unfinished else Tied)
    ensures index' < 2
    ensures Loop(cfg, st, index, input, draws)
      == if st'.gameOn then Loop(cfg, st', index', input[usedIn..], draws[usedDr..]) else (outcome, st')
  {
  }

  /** The whole session: ask who moves first, then run the game loop. */
  function Play(cfg: Config, st: State, input: seq<Token>, draws: seq<Draw>): (Outcome, State)
    requires ConfigOk(cfg) && |st.board| == 9
  {
    var (first, used) := FirstMover(input);
    if first.None? then (Unfinished, st)
    else Loop(cfg, st, first.value, input[used..], draws)
  }

  /** The transitions of one turn: a completed line is a win (also on the
      ninth move) and leaves the counter alone; otherwise the counter goes up
      by one and reaching 9 is a tie; only when neither happens does the turn
      pass to (index + 1) % 2. The running flag drops exactly on a win or tie. */
  lemma TurnTransitions(cfg: Config, st: State, index: nat, slot: int)
    requires ConfigOk(cfg) && |st.board| == 9 && index < 2 && 1 <= slot <= 9 && st.gameOn
    ensures var (st', index', o) := Turn(cfg, st, index, slot);
      && st'.board == st.board[slot - 1 := cfg.players[index].symbol]
      && (o.Won? <==> HasEqualLine(st'.board))
      && (o.Won? ==> o.winner == index && st'.round == st.round)
      && (o.Tied? <==> !HasEqualLine(st'.board) && st.round + 1 == 9)
      && (!o.Won? ==> st'.round == st.round + 1)
      && (st'.gameOn <==> o.Unfinished?)
      && index' < 2
      && index' == (if o.Unfinished? then (index + 1) % 2 else index)
  {
  }

  /** A turn on a free cell of a consistent, running session keeps it
      consistent; a win is a line of the mover's mark and a tie leaves the
      board full with no complete line. */
  lemma TurnKeepsConsistent(cfg: Config, st: State, index: nat, slot: int)
    requires ConfigOk(cfg) && Consistent(st) && st.gameOn && index < 2
    requires 1 <= slot <= 9 && !IsMark(st.board[slot - 1])
    ensures var (st', index', o) := Turn(cfg, st, index, slot);
      && Consistent(st')
      && MarkCount(st'.board) == MarkCount(st.board) + 1
      && (o.Won? ==> HasLineOf(st'.board, cfg.players[index].symbol)
                     && MarkCount(st'.board) == st'.round + 1)
      && (o.Tied? ==> st'.round == 9 && !HasEqualLine(st'.board) && Full(st'.board))
  {
    var c := cfg.players[index].symbol;
    var b := st.board[slot - 1 := c];
    PlaceKeepsDistinct(st.board, slot - 1, c);
    PlaceCountsOne(st.board, slot - 1, c);
    NewLineIsMovers(st.board, slot - 1, c);
    CountFull(b);
  }

  /** What the game loop ends with, from a consistent state: a winner's mark
      fills a line, a tie leaves a full board with no line after nine counted
      moves, an unfinished loop leaves the running flag as it was; marks
      already on the board are never overwritten. */
  lemma {:induction false} LoopOutcome(cfg: Config, st: State, index: nat, input: seq<Token>, draws: seq<Draw>)
    requires ConfigOk(cfg) && Consistent(st) && index < 2
    ensures var (o, st') := Loop(cfg, st, index, input, draws);
      && Consistent(st')
      && st.round <= st'.round
      && (forall i :: 0 <= i < 9 && IsMark(st.board[i]) ==> st'.board[i] == st.board[i])
      && (o.Won? ==> o.winner < 2 && !st'.gameOn
                     && HasLineOf(st'.board, cfg.players[o.winner].symbol)
                     && MarkCount(st'.board) == st'.round + 1)
      && (o.Tied? ==> !st'.gameOn && st'.round == 9 && !HasEqualLine(st'.board) && Full(st'.board))
      && (o.Unfinished? ==> st'.gameOn == st.gameOn)
    decreases |input| + |draws|
  {
    if st.gameOn {
      var (move, usedIn, usedDr) := NextMove(cfg, st.board, index, input, draws);
      if move.Some? {
        var (st', index', outcome) := Turn(cfg, st, index, move.value);
        TurnKeepsConsistent(cfg, st, index, move.value);
        TurnTransitions(cfg, st, index, move.value);
        if st'.gameOn {
          LoopOutcome(cfg, st', index', input[usedIn..], draws[usedDr..]);
        }
      }
    }
  }

  /** The same for the whole session: the announced winner is player 0 or 1
      and owns a complete line; a tie is a full board without one. */
  lemma PlayOutcome(cfg: Config, st: State, input: seq<Token>, draws: seq<Draw>)
    requires ConfigOk(cfg) && Consistent(st)
    ensures var (o, st') := Play(cfg, st, input, draws);
      && Consistent(st')
      && (forall i :: 0 <= i < 9 && IsMark(st.board[i]) ==> st'.board[i] == st.board[i])
      && (o.Won? ==> o.winner < 2 && !st'.gameOn && HasLineOf(st'.board, cfg.players[o.winner].symbol))
      && (o.Tied? ==> !st'.gameOn && st'.round == 9 && !HasEqualLine(st'.board) && Full(st'.board))
      && (o.Unfinished? ==> st'.gameOn == st.gameOn)
  {
    var (first, used) := FirstMover(input);
    if first.Some? {
      LoopOutcome(cfg, st, first.value, input[used..], draws);
    }
  }
}
