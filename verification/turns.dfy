// Turn bookkeeping: whose turn it is follows from the turn counter and the round's starting player.
module Turns {
  import opened Wrappers

  /** The counter as JavaScript adds it: `null + n` is `n`. */
  function Count(turn: Option<nat>): nat
  {
    if turn.None? then 0 else turn.value
  }

  /** `currentPlayer()`: the player who throws next. */
  function Current(turn: Option<nat>, startingPlayer: nat): (p: nat)
    ensures p <= 1
  {
    (Count(turn) + startingPlayer) % 2
  }

  /** `otherPlayer()`: the player who threw last, the opponent of the current player. */
  function Other(turn: Option<nat>, startingPlayer: nat): (p: nat)
    ensures p <= 1 && p != Current(turn, startingPlayer)
    ensures p + Current(turn, startingPlayer) == 1
  {
    (Count(turn) + startingPlayer + 1) % 2
  }

  /** `nextTurn()`: an unset counter is first set to 1, then the counter is incremented. */
  function Advance(turn: Option<nat>): (next: Option<nat>)
    ensures next.Some? && next.value > Count(turn)
    ensures turn.Some? ==> next.value == turn.value + 1
    ensures turn.None? ==> next.value == 2
  {
    Some((if turn.None? then 1 else turn.value) + 1)
  }

  /** `nextTurn()` applied k times. */
  function AdvanceTimes(turn: Option<nat>, k: nat): Option<nat>
  {
    if k == 0 then turn else Advance(AdvanceTimes(turn, k - 1))
  }

  /** Once set, each turn hands the throw to the opponent. */
  lemma AdvanceFlips(turn: Option<nat>, startingPlayer: nat)
    requires turn.Some?
    ensures Current(Advance(turn), startingPlayer) == Other(turn, startingPlayer)
    ensures Other(Advance(turn), startingPlayer) == Current(turn, startingPlayer)
  {
  }

  /** The first turn of a round does not change whose turn it is: the starting player throws first. */
  lemma FirstTurnKeepsStarter(startingPlayer: nat)
    requires startingPlayer <= 1
    ensures Advance(None) == Some(2)
    ensures Current(Advance(None), startingPlayer) == startingPlayer == Current(None, startingPlayer)
  {
  }

  /** After k >= 1 turns from an unset counter the counter is k + 1. */
  lemma {:induction false} AdvanceCount(k: nat)
    requires k >= 1
    ensures AdvanceTimes(None, k) == Some(k + 1)
  {
    if k > 1 {
      AdvanceCount(k - 1);
    }
  }

  /** Throws alternate and the starting player has the odd-numbered turns of a round. */
  lemma {:induction false} Alternation(startingPlayer: nat, k: nat)
    requires startingPlayer <= 1 && k >= 1
    ensures Current(AdvanceTimes(None, k), startingPlayer) ==
            if k % 2 == 1 then startingPlayer else 1 - startingPlayer
  {
    if k == 1 {
      FirstTurnKeepsStarter(startingPlayer);
    } else {
      Alternation(startingPlayer, k - 1);
      AdvanceCount(k - 1);
      AdvanceFlips(AdvanceTimes(None, k - 1), startingPlayer);
    }
  }
}
