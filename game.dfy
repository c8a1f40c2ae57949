/** The TicTacToe class: the nine-slot board mutated in place, the tie
    counter and the running flag as fields, and the operations of the game
    as methods on them. Console input and the random device are given as
    token and draw sequences. */
module Game {
  import opened Board
  import opened Moves
  import opened Session

  class TicTacToe {
    const slots: array<char>
    var currentRound: int
    var gameOn: bool
    const players: seq<Player>
    const boardSize: int

    ghost predicate Valid()
      reads this
    {
      slots.Length == 9 && ConfigOk(Config(players, boardSize))
    }

    /** The fields as a value of the session state machine. */
    ghost function Snapshot(): State
      reads this, slots
    {
      State(slots[..], currentRound, gameOn)
    }

    /** A new game (its construction is not part of this model, so the
        placeholders, players and board size are parameters): the board shows
        the given placeholders, no round counted,
        play on. */
    constructor (placeholders: seq<char>, players: seq<Player>, boardSize: int)
      requires |placeholders| == 9 && ConfigOk(Config(players, boardSize))
      ensures Valid() && fresh(slots)
      ensures Snapshot() == State(placeholders, 0, true)
      ensures this.players == players && this.boardSize == boardSize
      ensures PlaceholdersDistinct(placeholders) && (forall i :: 0 <= i < 9 ==> !IsMark(placeholders[i]))
              ==> Consistent(Snapshot())
    {
      this.players := players;
      this.boardSize := boardSize;
      slots := new char[9](i requires 0 <= i < 9 => placeholders[i]);
      currentRound := 0;
      gameOn := true;
      if PlaceholdersDistinct(placeholders) && forall i :: 0 <= i < 9 ==> !IsMark(placeholders[i]) {
        InitialConsistent(placeholders);
      }
    }

    /** Asks which player goes first until the answer is 1 or 2. */
    method DetermineWhoMovesFirst(input: seq<Token>) returns (first: Option<int>, used: nat)
      ensures (first, used) == FirstMover(input)
    {
      if |input| == 0 {
        return None, 0;
      }
      var userIn := input[0];
      used := 1;
      while true
        invariant 1 <= used <= |input| && userIn == input[used - 1]
        invariant FirstMover(input) == (FirstMover(input[used - 1..]).0, FirstMover(input[used - 1..]).1 + used - 1)
        decreases |input| - used
      {
        if userIn.Num? && (userIn.value == 1 || userIn.value == 2) {
          return Some(userIn.value - 1), used;
        }
        assert input[used - 1..][1..] == input[used..];
        if used == |input| {
          return None, used;
        }
        userIn := input[used];
        used := used + 1;
      }
    }

    /** Writes player p's mark into slot slotToUpdate (1..9). */
    method UpdateSlot(p: Player, slotToUpdate: int)
      requires Valid() && 1 <= slotToUpdate <= 9
      modifies slots
      ensures slots[..] == old(slots[..])[slotToUpdate - 1 := p.symbol]
    {
      slots[slotToUpdate - 1] := p.symbol;
    }

    /** Asks for a move until it names a slot 1..9 not yet marked. */
    method GetPlayerMove(input: seq<Token>) returns (move: Option<int>, used: nat)
      requires Valid()
      ensures (move, used) == PlayerMove(slots[..], input)
    {
      if |input| == 0 {
        return None, 0;
      }
      var userIn := input[0];
      used := 1;
      while !(userIn.Num? && !(userIn.value < 1 || userIn.value > 9)
              && !(slots[userIn.value - 1] == 'X' || slots[userIn.value - 1] == 'O'))
        invariant 1 <= used <= |input| && userIn == input[used - 1]
        invariant PlayerMove(slots[..], input)
          == (PlayerMove(slots[..], input[used - 1..]).0, PlayerMove(slots[..], input[used - 1..]).1 + used - 1)
        decreases |input| - used
      {
        assert input[used - 1..][1..] == input[used..];
        if used == |input| {
          return None, used;
        }
        userIn := input[used];
        used := used + 1;
      }
      move := Some(userIn.value);
    }

    /** The random player's move: one draw for the delay, then draws reduced
        modulo boardSize until one names an unmarked slot in 1..10. */
    method GetAIMove(draws: seq<Draw>) returns (move: Option<int>, used: nat)
      requires Valid()
      ensures (move, used) == AIMove(slots[..], boardSize, draws)
    {
      if |draws| == 0 {
        return None, 0;
      }
      used := 1;
      while true
        invariant 1 <= used <= |draws|
        invariant AIMove(slots[..], boardSize, draws)
          == (AIRoll(slots[..], boardSize, draws[used..]).0, AIRoll(slots[..], boardSize, draws[used..]).1 + used)
        decreases |draws| - used
      {
        if used == |draws| {
          return None, used;
        }
        var aiMove := draws[used] % boardSize;
        assert draws[used..][1..] == draws[used + 1..];
        used := used + 1;
        if !(aiMove < 1 || aiMove > 10) && !(slots[aiMove - 1] == 'X' || slots[aiMove - 1] == 'O') {
          return Some(aiMove), used;
        }
      }
    }

    /** 1 when one of the eight lines has three equal slots. */
    function DetermineWinner(): bool
      reads this, slots
      requires Valid()
    {
      // Horizontals
      (slots[0] == slots[1] && slots[1] == slots[2]) ||
      (slots[3] == slots[4] && slots[4] == slots[5]) ||
      (slots[6] == slots[7] && slots[7] == slots[8]) ||
      // Verticals
      (slots[0] == slots[3] && slots[3] == slots[6]) ||
      (slots[1] == slots[4] && slots[4] == slots[7]) ||
      (slots[2] == slots[5] && slots[5] == slots[8]) ||
      // Diagonals
      (slots[0] == slots[4] && slots[4] == slots[8]) ||
      (slots[2] == slots[4] && slots[4] == slots[6])
    }

    /** The win test holds exactly when some line of the table has three
        equal slots; with distinct placeholders, exactly when 'X' or 'O'
        fills a line. */
    lemma DetermineWinnerIsEqualLine()
      requires Valid()
      ensures DetermineWinner() <==> HasEqualLine(slots[..])
      ensures PlaceholdersDistinct(slots[..])
              ==> (DetermineWinner() <==> HasLineOf(slots[..], 'X') || HasLineOf(slots[..], 'O'))
    {
      EqualLineCases(slots[..]);
      if PlaceholdersDistinct(slots[..]) {
        EqualLineIsMarkLine(slots[..]);
      }
    }

    /** Counts one more round; a tie when the count reaches 9. */
    method DetermineTie() returns (tie: bool)
      modifies this`currentRound
      ensures currentRound == old(currentRound) + 1
      ensures tie <==> currentRound == 9
    {
      currentRound := currentRound + 1;
      tie := currentRound == 9;
    }

    /** Asks who moves first, then plays turns until a win or a tie (or until
        the input runs out). */
    method PlayGame(input: seq<Token>, draws: seq<Draw>) returns (outcome: Outcome)
      requires Valid()
      modifies this, slots
      ensures Valid()
      ensures (outcome, Snapshot()) == Play(Config(players, boardSize), old(Snapshot()), input, draws)
    {
      ghost var cfg := Config(players, boardSize);
      ghost var goal := Play(cfg, Snapshot(), input, draws);
      outcome := Unfinished;
      var first, used := DetermineWhoMovesFirst(input);
      if first.None? {
        return;
      }
      var currentPlayerIndex: nat := first.value;
      // what is left of the console input and of the random device
      var restIn, restDr := input[used..], draws;
      while gameOn
        invariant Valid()
        invariant currentPlayerIndex < 2
        invariant gameOn ==> outcome == Unfinished
        invariant goal == if gameOn then Loop(cfg, Snapshot(), currentPlayerIndex, restIn, restDr)
                          else (outcome, Snapshot())
        decreases |restIn| + |restDr|
      {
        ghost var start, beforeIn, beforeDr := Snapshot(), restIn, restDr;
        var currentPlayer := players[currentPlayerIndex];
        var currentPlayerMove, n;
        ghost var usedIn, usedDr;
        if currentPlayer.isAI {
          currentPlayerMove, n := GetAIMove(restDr);
          usedIn, usedDr := 0, n;
          restDr := restDr[n..];
        } else {
          currentPlayerMove, n := GetPlayerMove(restIn);
          usedIn, usedDr := n, 0;
          restIn := restIn[n..];
        }
        assert NextMove(cfg, slots[..], currentPlayerIndex, beforeIn, beforeDr) == (currentPlayerMove, usedIn, usedDr);
        ghost var before := Snapshot();
        assert before == start;
        if currentPlayerMove.None? {
          return;
        }
        ghost var index, move := currentPlayerIndex, currentPlayerMove.value;
        UpdateSlot(currentPlayer, currentPlayerMove.value);
        ghost var placed := slots[..];
        assert placed == before.board[move - 1 := currentPlayer.symbol];
        var won := DetermineWinner();
        DetermineWinnerIsEqualLine();
        assert won == HasEqualLine(placed);
        if won {
          gameOn := false;
          outcome := Won(currentPlayerIndex);
        } else {
          var tie := DetermineTie();
          if tie {
            gameOn := false;
            outcome := Tied;
          } else {
            currentPlayerIndex := (currentPlayerIndex + 1) % 2;
          }
        }
        assert slots[..] == placed;
        LoopStep(cfg, before, index, beforeIn, beforeDr, move, usedIn, usedDr,
                 won, Snapshot(), currentPlayerIndex, outcome);
      }
    }
  }
}
