/** Which input values the three prompt loops accept. Console input is a
    sequence of already-parsed tokens and the random device a sequence of
    draws; each selector returns the value it settles on together with the
    number of tokens or draws it consumed, or None when the sequence runs
    out before an acceptable value (where the program would wait forever). */
module Moves {
  import opened Board

  datatype Option<T> = None | Some(value: T)

  /** One integer read from the console; Garbage is a read that fails to
      parse as an int (which leaves 0 in the variable and the stream failed). */
  datatype Token = Num(value: int) | Garbage

  /** One value of the random device: an unsigned 32-bit integer. */
  type Draw = d: int | 0 <= d < 0x1_0000_0000

  /** The first-mover prompt accepts exactly the integers 1 and 2. */
  predicate AcceptsFirstMover(t: Token) {
    t.Num? && (t.value == 1 || t.value == 2)
  }

  /** The move prompt accepts an integer 1..9 whose cell is not marked; the
      range test comes first, so the cell is only read for a slot in range. */
  predicate AcceptsMove(b: seq<char>, t: Token)
    requires |b| == 9
  {
    t.Num? && !(t.value < 1 || t.value > 9) && !(b[t.value - 1] == 'X' || b[t.value - 1] == 'O')
  }

  /** The slot a draw names: the draw reduced modulo the board size. */
  function Roll(d: Draw, boardSize: int): int
    requires 1 <= boardSize
  {
    d % boardSize
  }

  /** The AI loop accepts a reduced draw in 1..10 whose cell is not marked. */
  predicate AcceptsRoll(b: seq<char>, boardSize: int, d: Draw)
    requires |b| == 9 && 1 <= boardSize <= 10
  {
    var m := Roll(d, boardSize);
    !(m < 1 || m > 10) && !(b[m - 1] == 'X' || b[m - 1] == 'O')
  }

  /** Answer of the first-mover prompt: zero-based index of the first mover,
      which is always 0 or 1. */
  function FirstMover(input: seq<Token>): (r: (Option<int>, nat))
    ensures r.1 <= |input|
    ensures r.0.Some? ==> 1 <= r.1 && (r.0.value == 0 || r.0.value == 1)
    decreases |input|
  {
    if |input| == 0 then (None, 0)
    else if AcceptsFirstMover(input[0]) then (Some(input[0].value - 1), 1)
    else
      var r := FirstMover(input[1..]);
      (r.0, r.1 + 1)
  }

  /** The first-mover prompt returns userIn - 1 for the first token that is
      1 or 2, after rejecting every token before it; with no such token it
      consumes the whole input and returns nothing. */
  lemma {:induction false} FirstMoverIsFirstAccepted(input: seq<Token>)
    ensures var r := FirstMover(input);
      && (r.0.Some? ==> AcceptsFirstMover(input[r.1 - 1]) && r.0.value == input[r.1 - 1].value - 1)
      && (r.0.Some? ==> forall j :: 0 <= j < r.1 - 1 ==> !AcceptsFirstMover(input[j]))
      && (r.0.None? ==> r.1 == |input| && forall j :: 0 <= j < |input| ==> !AcceptsFirstMover(input[j]))
    decreases |input|
  {
    if |input| > 0 && !AcceptsFirstMover(input[0]) {
      FirstMoverIsFirstAccepted(input[1..]);
    }
  }

  /** Answer of the move prompt on board b: a slot 1..9 that is not marked. */
  function PlayerMove(b: seq<char>, input: seq<Token>): (r: (Option<int>, nat))
    requires |b| == 9
    ensures r.1 <= |input|
    ensures r.0.Some? ==> 1 <= r.1 && 1 <= r.0.value <= 9 && !IsMark(b[r.0.value - 1])
    decreases |input|
  {
    if |input| == 0 then (None, 0)
    else if AcceptsMove(b, input[0]) then (Some(input[0].value), 1)
    else
      var r := PlayerMove(b, input[1..]);
      (r.0, r.1 + 1)
  }

  /** The move prompt returns the first token that names a free slot in
      range, after rejecting every token before it (out of range, not a
      number, or a marked slot); with no such token it returns nothing. */
  lemma {:induction false} PlayerMoveIsFirstAccepted(b: seq<char>, input: seq<Token>)
    requires |b| == 9
    ensures var r := PlayerMove(b, input);
      && (r.0.Some? ==> AcceptsMove(b, input[r.1 - 1]) && r.0.value == input[r.1 - 1].value)
      && (r.0.Some? ==> forall j :: 0 <= j < r.1 - 1 ==> !AcceptsMove(b, input[j]))
      && (r.0.None? ==> r.1 == |input| && forall j :: 0 <= j < |input| ==> !AcceptsMove(b, input[j]))
    decreases |input|
  {
    if |input| > 0 && !AcceptsMove(b, input[0]) {
      PlayerMoveIsFirstAccepted(b, input[1..]);
    }
  }

  /** The retry part of the AI's choice: the first acceptable roll, a free slot. */
  function AIRoll(b: seq<char>, boardSize: int, draws: seq<Draw>): (r: (Option<int>, nat))
    requires |b| == 9 && 1 <= boardSize <= 10
    ensures r.1 <= |draws|
    ensures r.0.Some? ==> 1 <= r.1 && 1 <= r.0.value <= 9 && !IsMark(b[r.0.value - 1])
    decreases |draws|
  {
    if |draws| == 0 then (None, 0)
    else if AcceptsRoll(b, boardSize, draws[0]) then (Some(Roll(draws[0], boardSize)), 1)
    else
      var r := AIRoll(b, boardSize, draws[1..]);
      (r.0, r.1 + 1)
  }

  /** The AI's choice: the first draw only sets the "thinking" delay, the
      rest are rolled until one is acceptable. */
  function AIMove(b: seq<char>, boardSize: int, draws: seq<Draw>): (r: (Option<int>, nat))
    requires |b| == 9 && 1 <= boardSize <= 10
    ensures r.1 <= |draws|
    ensures r.0.Some? ==> 2 <= r.1 && 1 <= r.0.value <= 9 && !IsMark(b[r.0.value - 1])
  {
    if |draws| == 0 then (None, 0)
    else
      var r := AIRoll(b, boardSize, draws[1..]);
      (r.0, r.1 + 1)
  }

  /** The AI settles on the first roll after the delay draw that is
      acceptable, having rejected every roll before it. Because the draw is
      reduced modulo boardSize before the range test, the slot is at most
      boardSize - 1. */
  lemma {:induction false} AIMoveIsFirstAccepted(b: seq<char>, boardSize: int, draws: seq<Draw>)
    requires |b| == 9 && 1 <= boardSize <= 10
    ensures var r := AIMove(b, boardSize, draws);
      && (r.0.Some? ==> AcceptsRoll(b, boardSize, draws[r.1 - 1])
                        && r.0.value == draws[r.1 - 1] % boardSize && r.0.value <= boardSize - 1)
      && (r.0.Some? ==> forall j :: 1 <= j < r.1 - 1 ==> !AcceptsRoll(b, boardSize, draws[j]))
      && (r.0.None? ==> r.1 == |draws| && forall j :: 1 <= j < |draws| ==> !AcceptsRoll(b, boardSize, draws[j]))
  {
    if |draws| > 0 {
      AIRollIsFirstAccepted(b, boardSize, draws[1..]);
    }
  }

  lemma {:induction false} AIRollIsFirstAccepted(b: seq<char>, boardSize: int, draws: seq<Draw>)
    requires |b| == 9 && 1 <= boardSize <= 10
    ensures var r := AIRoll(b, boardSize, draws);
      && (r.0.Some? ==> AcceptsRoll(b, boardSize, draws[r.1 - 1])
                        && r.0.value == draws[r.1 - 1] % boardSize && r.0.value <= boardSize - 1)
      && (r.0.Some? ==> forall j :: 0 <= j < r.1 - 1 ==> !AcceptsRoll(b, boardSize, draws[j]))
      && (r.0.None? ==> r.1 == |draws| && forall j :: 0 <= j < |draws| ==> !AcceptsRoll(b, boardSize, draws[j]))
    decreases |draws|
  {
    if |draws| > 0 && !AcceptsRoll(b, boardSize, draws[0]) {
      AIRollIsFirstAccepted(b, boardSize, draws[1..]);
    }
  }

  /** With boardSize 9, a board whose only free cell is slot 9 makes the AI
      reject every draw: it can never take the last slot. */
  lemma {:induction false} AIStallsOnLastSlot(b: seq<char>, draws: seq<Draw>)
    requires |b| == 9 && !IsMark(b[8])
    requires forall i :: 0 <= i < 8 ==> IsMark(b[i])
    ensures AIMove(b, 9, draws).0 == None
    ensures forall d: Draw :: !AcceptsRoll(b, 9, d)
  {
    forall d: Draw ensures !AcceptsRoll(b, 9, d) {
      assert 0 <= Roll(d, 9) < 9;
    }
    AIMoveIsFirstAccepted(b, 9, draws);
  }
}
