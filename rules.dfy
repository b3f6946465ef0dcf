/** Board rules of the addition game: the state is a current number and a
    turn count, it is player (number % 2)'s turn, the game is over once the
    number reaches 100, and a move adds a strictly positive number. */
module Rules {

  datatype Option<T> = None | Some(value: T)

  /** The game is finished once the current number reaches this value. */
  const FinishThreshold: nat := 100

  /** The addition game is played by two participants. */
  const NumPlayers: nat := 2

  /** A board state: the current number and the count of turns made so far.
      The concrete string encoding of the pair is not modelled. */
  datatype State = State(number: nat, count: nat)

  /** A move is the number to add.  It is an `int` so that the moves the
      rules reject (zero and negative numbers) can be expressed. */
  type Move = int

  predicate IsFinished(s: State)
  {
    s.number >= FinishThreshold
  }

  /** The participant whose turn it is, or None once the game is over. */
  function WhoseTurn(s: State): (r: Option<nat>)
    ensures r.None? <==> IsFinished(s)
    ensures r.Some? ==> r.value < NumPlayers
    ensures r.Some? ==> (r.value == 0 <==> s.number % 2 == 0)
  {
    if IsFinished(s) then None else Some(s.number % NumPlayers)
  }

  /** Applies a move to a state; a move that is not strictly positive is
      rejected and yields no successor state. */
  function ApplyMove(s: State, m: Move): (r: Option<State>)
    ensures r.Some? <==> m > 0
    ensures r.Some? ==> r.value.number > s.number
    ensures r.Some? ==> r.value.number - s.number == m && r.value.count == s.count + 1
  {
    if m <= 0 then None else Some(State(s.number + m, s.count + 1))
  }

  /** An accepted move hands the turn to the other player exactly when the
      move is odd, unless it ends the game. */
  lemma TurnAfterMove(s: State, m: Move)
    requires !IsFinished(s) && m > 0
    ensures ApplyMove(s, m).Some?
    ensures var t := ApplyMove(s, m).value;
      IsFinished(t) || WhoseTurn(t) == Some((WhoseTurn(s).value + m) % NumPlayers)
  {
  }
}
