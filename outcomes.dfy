/** Deciding a finished round and keeping the win/loss tally. */
module Outcomes {
  import opened Cards

  /** The six results the game can announce. */
  datatype Outcome = PlayerBust | DealerBust | Push | PlayerBlackjack | PlayerWin | DealerWin

  predicate IsWin(o: Outcome) {
    o == DealerBust || o == PlayerBlackjack || o == PlayerWin
  }

  predicate IsLoss(o: Outcome) {
    o == PlayerBust || o == DealerWin
  }

  /** determineWinner's ordered rules: player over 21, dealer over 21, equal
      scores, a two-card 21, the higher score. The contract states the
      result without the ordering: each bust label goes exactly to its
      bust (the player's checked first); the player wins exactly when not bust and
      either the dealer is bust or the player is higher; a push is an equal
      score with nobody bust; and the blackjack label goes to a two-card 21
      against a dealer below 21, so a two-card 21 against a 21 is a push. */
  function Resolve(playerScore: int, dealerScore: int, playerCardCount: nat): (o: Outcome)
    ensures o == PlayerBust <==> playerScore > BlackjackScore
    ensures o == DealerBust <==> playerScore <= BlackjackScore && dealerScore > BlackjackScore
    ensures IsWin(o) <==> playerScore <= BlackjackScore && (dealerScore > BlackjackScore || playerScore > dealerScore)
    ensures IsLoss(o) <==> playerScore > BlackjackScore || (dealerScore <= BlackjackScore && playerScore < dealerScore)
    ensures o == Push <==> playerScore <= BlackjackScore && dealerScore <= BlackjackScore && playerScore == dealerScore
    ensures o == PlayerBlackjack <==> playerScore == BlackjackScore && playerCardCount == 2 && dealerScore < BlackjackScore
  {
    if playerScore > BlackjackScore then PlayerBust
    else if dealerScore > BlackjackScore then DealerBust
    else if playerScore == dealerScore then Push
    else if playerScore == BlackjackScore && playerCardCount == 2 then PlayerBlackjack
    else if playerScore > dealerScore then PlayerWin
    else DealerWin
  }

  /** The cumulative counters. */
  datatype Stats = Stats(wins: nat, losses: nat)

  /** Counting a result: on a push nothing changes; otherwise exactly one
      counter grows, by one, the wins for a win and the losses for a loss. */
  function Record(s: Stats, o: Outcome): (r: Stats)
    ensures o == Push ==> r == s
    ensures o != Push ==> r.wins + r.losses == s.wins + s.losses + 1
    ensures r.wins >= s.wins && r.losses >= s.losses
    ensures r.wins > s.wins <==> IsWin(o)
    ensures r.losses > s.losses <==> IsLoss(o)
  {
    if IsWin(o) then Stats(s.wins + 1, s.losses)
    else if IsLoss(o) then Stats(s.wins, s.losses + 1)
    else s
  }
}
