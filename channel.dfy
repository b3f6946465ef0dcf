/** The per-game channel policy of the addition game: automatic moves of +2
    when the last digit of the number is 6 to 9 (switchable by a flag), and
    the on-chain move "100" once the number is exactly 100. */
module Channel {
  import opened Rules

  /** The automatic move that is proposed. */
  const AutoMoveValue: Move := 2

  /** The number at which the on-chain move is sent, and that move. */
  const OnChainTrigger: nat := 100
  const OnChainMoveText: string := "100"

  /** Whether the last decimal digit of n is one of 6, 7, 8 and 9. */
  predicate HasAutoMoveDigit(n: nat)
  {
    6 <= n % 10 <= 9
  }

  /** The on-chain moves that the policy sends for a state: one move "100"
      when the number is exactly 100, and none otherwise. */
  function OnChainMoves(s: State): (r: seq<string>)
    ensures |r| <= 1
    ensures r != [] <==> s.number == OnChainTrigger
    ensures forall k :: 0 <= k < |r| ==> r[k] == OnChainMoveText
  {
    if s.number == OnChainTrigger then [OnChainMoveText] else []
  }

  /** The collaborator through which on-chain moves are sent; it records the
      moves in the order they were sent. */
  class MoveSender {
    var sent: seq<string>

    constructor ()
      ensures sent == []
    {
      sent := [];
    }

    method SendMove(mv: string)
      modifies this
      ensures sent == old(sent) + [mv]
    {
      sent := sent + [mv];
    }
  }

  class AdditionChannel {
    /** If set, automoves are processed. */
    var automovesEnabled: bool

    constructor ()
      ensures automovesEnabled
    {
      automovesEnabled := true;
    }

    /** Switches automoves on or off; nothing else about the channel changes
        (the flag is its only state). */
    method SetAutomovesEnabled(val: bool)
      modifies this
      ensures automovesEnabled == val
    {
      automovesEnabled := val;
    }

    /** Decides whether an automove is due in state s, and which.  With
        automoves disabled the answer is always no.  With them enabled, on a
        game still in progress, the answer is yes with the move +2 exactly
        when the last digit of the number is 6 to 9. */
    method MaybeAutoMove(s: State) returns (found: bool, mv: Move)
      ensures found ==> automovesEnabled && HasAutoMoveDigit(s.number) && mv == AutoMoveValue
      ensures automovesEnabled && !IsFinished(s) && HasAutoMoveDigit(s.number) ==> found
    {
      found, mv := false, 0;
      if !automovesEnabled {
        return;
      }
      if HasAutoMoveDigit(s.number) {
        found, mv := true, AutoMoveValue;
      }
    }

    /** Sends the on-chain move "100" through the sender when the number is
        exactly 100, and sends nothing otherwise. */
    method MaybeOnChainMove(s: State, sender: MoveSender)
      modifies sender
      ensures sender.sent == old(sender.sent) + OnChainMoves(s)
    {
      if s.number == OnChainTrigger {
        sender.SendMove(OnChainMoveText);
      }
    }
  }
}
