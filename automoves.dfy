/** Chains of automoves: after an automove has been applied, the policy is
    asked again on the resulting state, until it proposes nothing or the game
    is over.  For the addition game such a chain is at most two moves long
    (6 -> 8 -> 10, 8 -> 10). */
module AutoMoves {
  import opened Rules
  import opened Channel

  /** How many automoves are still to come from a number, judged by its last
      digit alone: two from 6 or 7, one from 8 or 9, none otherwise. */
  function AutoMovesLeft(n: nat): (k: nat)
    ensures k <= 2
    ensures k > 0 <==> HasAutoMoveDigit(n)
  {
    var d := n % 10;
    if d == 6 || d == 7 then 2 else if d == 8 || d == 9 then 1 else 0
  }

  /** One automove uses up one of the automoves still to come. */
  lemma AutoStepShortens(n: nat)
    requires HasAutoMoveDigit(n)
    ensures AutoMovesLeft(n + AutoMoveValue) + 1 == AutoMovesLeft(n)
  {
  }

  /** The state reached from s by applying automoves, with automoves enabled,
      for as long as the game is in progress and one is proposed. */
  function AutoChain(s: State): (t: State)
    decreases AutoMovesLeft(s.number)
    ensures t.count >= s.count && t.number >= s.number
    ensures !IsFinished(t) ==> !HasAutoMoveDigit(t.number)
  {
    if !IsFinished(s) && HasAutoMoveDigit(s.number) then
      AutoStepShortens(s.number);
      AutoChain(ApplyMove(s, AutoMoveValue).value)
    else
      s
  }

  /** An automove chain ends exactly where no further automove is due, makes
      two moves from a last digit of 6 or 7, one from 8 or 9 and none
      otherwise, each adding 2 and one turn, and when it moves at all it ends
      on a number whose last digit is 0 or 1. */
  lemma {:induction false} AutoChainConverges(s: State)
    decreases AutoMovesLeft(s.number)
    ensures var t := AutoChain(s);
      t.count == s.count + (if IsFinished(s) then 0 else AutoMovesLeft(s.number))
    ensures var t := AutoChain(s);
      t.number == s.number + AutoMoveValue * (t.count - s.count)
    ensures var t := AutoChain(s);
      IsFinished(t) || !HasAutoMoveDigit(t.number)
    ensures var t := AutoChain(s);
      t != s ==> t.number % 10 == 0 || t.number % 10 == 1
  {
    if !IsFinished(s) && HasAutoMoveDigit(s.number) {
      var next := ApplyMove(s, AutoMoveValue).value;
      AutoStepShortens(s.number);
      AutoChainConverges(next);
      assert AutoChain(s) == AutoChain(next);
      assert (s.number + 2) % 10 == (s.number % 10 + 2) % 10;
      if IsFinished(next) {
        assert s.number == 98 || s.number == 99;
      }
    }
  }

  /** Reaching 100 through automoves also triggers the on-chain move: after
      the automove chain the move "100" is due exactly when the chain started
      at 96, 98 or 100. */
  lemma OnChainAfterAutoMoves(s: State)
    ensures OnChainMoves(AutoChain(s)) != [] <==> s.number in {96, 98, 100}
  {
    AutoChainConverges(s);
  }

  /** The automove loop of the channel manager, as far as this game is
      concerned: ask the policy for an automove and apply it, until it
      proposes none or the game is over.  Returns the final state and the
      number of automoves applied. */
  method RunAutoMoves(channel: AdditionChannel, s: State) returns (t: State, steps: nat)
    ensures steps <= 2
    ensures t.number == s.number + AutoMoveValue * steps && t.count == s.count + steps
    ensures channel.automovesEnabled ==> t == AutoChain(s)
    ensures !channel.automovesEnabled ==> t == s && steps == 0
  {
    t, steps := s, 0;
    while !IsFinished(t)
      invariant t.number == s.number + AutoMoveValue * steps && t.count == s.count + steps
      invariant steps + AutoMovesLeft(t.number) == AutoMovesLeft(s.number)
      invariant channel.automovesEnabled ==> AutoChain(t) == AutoChain(s)
      invariant !channel.automovesEnabled ==> steps == 0
      decreases AutoMovesLeft(t.number)
    {
      var found, mv := channel.MaybeAutoMove(t);
      if !found {
        break;
      }
      AutoStepShortens(t.number);
      t := ApplyMove(t, mv).value;
      steps := steps + 1;
    }
  }

  /** A client of the policy: example walks through the game, among them the
      two automove chains 8 -> 10 and 6 -> 8 -> 10. */
  method Scenarios()
  {
    var channel := new AdditionChannel();
    var sender := new MoveSender();

    // Player 0 moves 2 from (6, 3); one automove follows, from 8 to 10.
    var s := State(6, 3);
    assert WhoseTurn(s) == Some(0);
    var afterMove := ApplyMove(s, 2).value;
    assert afterMove == State(8, 4);
    var t, steps := RunAutoMoves(channel, afterMove);
    assert t == State(10, 5) && steps == 1;
    channel.MaybeOnChainMove(t, sender);
    assert sender.sent == [];

    // Two automoves in a row: 6 -> 8 -> 10.
    t, steps := RunAutoMoves(channel, State(6, 0));
    assert t == State(10, 2) && steps == 2;

    // A move of 2 from (98, 10) reaches exactly 100: the on-chain move is sent.
    var last := ApplyMove(State(98, 10), 2).value;
    assert last == State(100, 11) && IsFinished(last);
    channel.MaybeOnChainMove(last, sender);
    assert sender.sent == ["100"];

    // With automoves disabled, nothing is applied.
    channel.SetAutomovesEnabled(false);
    t, steps := RunAutoMoves(channel, State(8, 4));
    assert t == State(8, 4) && steps == 0;

    // A zero move is rejected.
    assert ApplyMove(State(8, 4), 0).None?;
  }
}
