/** Sequences of moves played from a state: every accepted move adds to the
    number and counts one turn, and along any play the on-chain move "100"
    is due in at most one state. */
module Play {
  import opened Rules
  import opened Channel

  function Sum(ms: seq<Move>): int
  {
    if ms == [] then 0 else ms[0] + Sum(ms[1..])
  }

  predicate AllPositive(ms: seq<Move>)
  {
    forall i :: 0 <= i < |ms| ==> ms[i] > 0
  }

  /** Applies the moves one after another; the play fails at the first
      rejected move. */
  function ApplyMoves(s: State, ms: seq<Move>): (r: Option<State>)
    decreases |ms|
    ensures r.Some? ==> r.value.count == s.count + |ms| && r.value.number >= s.number + |ms|
  {
    if ms == [] then Some(s)
    else
      match ApplyMove(s, ms[0])
      case None => None
      case Some(t) => ApplyMoves(t, ms[1..])
  }

  /** A play is accepted exactly when every move is strictly positive; it then
      adds the sum of the moves to the number and one turn per move. */
  lemma {:induction false} ApplyMovesAccepts(s: State, ms: seq<Move>)
    decreases |ms|
    ensures ApplyMoves(s, ms).Some? <==> AllPositive(ms)
    ensures ApplyMoves(s, ms).Some? ==>
      ApplyMoves(s, ms).value.number == s.number + Sum(ms) &&
      ApplyMoves(s, ms).value.count == s.count + |ms|
  {
    if ms != [] {
      assert AllPositive(ms) <==> ms[0] > 0 && AllPositive(ms[1..]) by {
        assert forall i :: 1 <= i < |ms| ==> ms[i] == ms[1..][i - 1];
      }
      if ms[0] > 0 {
        ApplyMovesAccepts(ApplyMove(s, ms[0]).value, ms[1..]);
      }
    }
  }

  /** The states a play of accepted moves passes through, starting state
      included. */
  function Trace(s: State, ms: seq<Move>): (ts: seq<State>)
    requires AllPositive(ms)
    decreases |ms|
    ensures |ts| == |ms| + 1 && ts[0] == s
  {
    if ms == [] then [s]
    else [s] + Trace(ApplyMove(s, ms[0]).value, ms[1..])
  }

  /** Each state of a trace is the previous one with the next move applied,
      and the trace ends in the state the whole play reaches. */
  lemma {:induction false} TraceFollowsMoves(s: State, ms: seq<Move>)
    requires AllPositive(ms)
    decreases |ms|
    ensures forall i :: 0 <= i < |ms| ==> ApplyMove(Trace(s, ms)[i], ms[i]) == Some(Trace(s, ms)[i + 1])
    ensures ApplyMoves(s, ms).Some? && Trace(s, ms)[|ms|] == ApplyMoves(s, ms).value
  {
    if ms != [] {
      var t := ApplyMove(s, ms[0]).value;
      var tail := ms[1..];
      assert AllPositive(tail) by {
        assert forall i :: 0 <= i < |tail| ==> tail[i] == ms[i + 1];
      }
      TraceFollowsMoves(t, tail);
      var ts := Trace(s, ms);
      var rest := Trace(t, tail);
      assert ts == [s] + rest;
      forall i | 0 <= i < |ms| ensures ApplyMove(ts[i], ms[i]) == Some(ts[i + 1]) {
        if i > 0 {
          assert ts[i] == rest[i - 1] && ts[i + 1] == rest[i] && ms[i] == tail[i - 1];
        }
      }
    }
  }

  predicate StrictlyIncreasing(ts: seq<State>)
  {
    forall i, j :: 0 <= i < j < |ts| ==> ts[i].number < ts[j].number
  }

  /** The number strictly grows along a play. */
  lemma {:induction false} TraceIncreasing(s: State, ms: seq<Move>)
    requires AllPositive(ms)
    decreases |ms|
    ensures StrictlyIncreasing(Trace(s, ms))
  {
    if ms != [] {
      var t := ApplyMove(s, ms[0]).value;
      TraceIncreasing(t, ms[1..]);
      var rest := Trace(t, ms[1..]);
      assert Trace(s, ms) == [s] + rest;
      forall j | 0 < j < |rest| ensures s.number < rest[j].number {
        assert rest[0].number < rest[j].number;
      }
    }
  }

  /** The on-chain moves sent if the policy is consulted on each state in
      turn. */
  function SentAlong(ts: seq<State>): (r: seq<string>)
    ensures |r| <= |ts|
    ensures forall k :: 0 <= k < |r| ==> r[k] == OnChainMoveText
  {
    if ts == [] then [] else OnChainMoves(ts[0]) + SentAlong(ts[1..])
  }

  /** On states whose number strictly grows, the on-chain move is sent once
      if some state has number exactly 100, and never otherwise. */
  lemma {:induction false} SentAlongIncreasing(ts: seq<State>)
    requires StrictlyIncreasing(ts)
    ensures SentAlong(ts) ==
      if exists i :: 0 <= i < |ts| && ts[i].number == OnChainTrigger then [OnChainMoveText] else []
  {
    if ts != [] {
      var rest := ts[1..];
      assert StrictlyIncreasing(rest) by {
        forall i, j | 0 <= i < j < |rest| ensures rest[i].number < rest[j].number {
          assert rest[i] == ts[i + 1] && rest[j] == ts[j + 1];
        }
      }
      SentAlongIncreasing(rest);
      if ts[0].number == OnChainTrigger {
        forall i | 0 <= i < |rest| ensures rest[i].number != OnChainTrigger {
          assert rest[i] == ts[i + 1];
        }
      } else {
        if exists i :: 0 <= i < |ts| && ts[i].number == OnChainTrigger {
          var i :| 0 <= i < |ts| && ts[i].number == OnChainTrigger;
          assert rest[i - 1] == ts[i];
        }
        if exists i :: 0 <= i < |rest| && rest[i].number == OnChainTrigger {
          var i :| 0 <= i < |rest| && rest[i].number == OnChainTrigger;
          assert ts[i + 1] == rest[i];
        }
      }
    }
  }

  /** Along any play of accepted moves, the on-chain move "100" is sent at
      most once: exactly once when the play passes through the number 100,
      and never when it jumps over it. */
  lemma OnChainMoveSentAtMostOnce(s: State, ms: seq<Move>)
    requires AllPositive(ms)
    ensures |SentAlong(Trace(s, ms))| <= 1
    ensures SentAlong(Trace(s, ms)) != [] <==>
      exists i :: 0 <= i < |Trace(s, ms)| && Trace(s, ms)[i].number == OnChainTrigger
  {
    TraceIncreasing(s, ms);
    SentAlongIncreasing(Trace(s, ms));
  }
}
