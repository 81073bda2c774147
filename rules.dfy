/** The round as a state machine over a value: what each of the game's
    operations does to the table, given the random source. The Engine class
    carries out these same steps in place. */
module Rules {
  import opened Cards
  import opened Deck
  import opened Hand
  import opened Outcomes

  /** Everything a round changes: the deck, both hands, the two flags, the
      counters and the position of the next unused random value. */
  datatype Table = Table(
    deck: seq<Card>,
    playerCards: seq<Card>,
    dealerCards: seq<Card>,
    gameOver: bool,
    isProcessing: bool,
    winsCount: nat,
    lossesCount: nat,
    cursor: nat)

  /** What every table reachable from the start satisfies: all cards came
      from deck builds, and the deck never holds a card more often than a
      fresh deck does. */
  predicate TableOk(t: Table) {
    && AllValid(t.deck) && AllValid(t.playerCards) && AllValid(t.dealerCards)
    && multiset(t.deck) <= multiset(FreshDeck())
  }

  /** The table before the first round. */
  function Initial(): (t: Table)
    ensures TableOk(t)
  {
    Table([], [], [], false, false, 0, 0, 0)
  }

  /** The round's result from the hands on the table. */
  function RoundOutcome(t: Table): Outcome {
    Resolve(Score(t.playerCards), Score(t.dealerCards), |t.playerCards|)
  }

  /** createAndShuffleDeck: a fresh deck, shuffled; nothing else changes
      but the random position. */
  function AfterRebuild(t: Table, rand: nat -> nat): (r: Table)
    ensures |r.deck| == DeckSize && multiset(r.deck) == multiset(FreshDeck())
    ensures r == t.(deck := r.deck, cursor := t.cursor + PicksPerShuffle)
    ensures TableOk(t) ==> TableOk(r)
  {
    t.(deck := Rebuilt(rand, t.cursor), cursor := t.cursor + PicksPerShuffle)
  }

  /** One dealt card, to the player or to the dealer. */
  function AfterDealTo(t: Table, rand: nat -> nat, toPlayer: bool): (r: Table)
    requires TableOk(t)
    ensures TableOk(r)
  {
    var d := Draw(t.deck, rand, t.cursor);
    if toPlayer then t.(deck := d.deck, playerCards := t.playerCards + [d.card], cursor := d.cursor)
    else t.(deck := d.deck, dealerCards := t.dealerCards + [d.card], cursor := d.cursor)
  }

  /** dealInitialCards: clear both hands, reopen the round, then deal
      player, dealer, player, dealer. */
  function AfterDeal(t: Table, rand: nat -> nat): (r: Table)
    requires TableOk(t)
    ensures TableOk(r)
  {
    var t0 := t.(playerCards := [], dealerCards := [], gameOver := false);
    var t1 := AfterDealTo(t0, rand, true);
    var t2 := AfterDealTo(t1, rand, false);
    var t3 := AfterDealTo(t2, rand, true);
    AfterDealTo(t3, rand, false)
  }

  /** The initial deal leaves two cards in each hand and the round open, and
      changes nothing but the deck, the hands, the flag and the random
      position. From a deck of four cards or more it deals the last card to
      the player, the one before it to the dealer, then the next to the
      player and the next to the dealer, without touching the random source. */
  lemma DealOrder(t: Table, rand: nat -> nat)
    requires TableOk(t)
    ensures var r := AfterDeal(t, rand);
      && |r.playerCards| == 2 && |r.dealerCards| == 2 && !r.gameOver
      && r.isProcessing == t.isProcessing && r.winsCount == t.winsCount && r.lossesCount == t.lossesCount
      && (|t.deck| >= 4 ==> var n := |t.deck|;
           && r.playerCards == [t.deck[n - 1], t.deck[n - 3]]
           && r.dealerCards == [t.deck[n - 2], t.deck[n - 4]]
           && r.deck == t.deck[..n - 4]
           && r.cursor == t.cursor)
  {
    var t0 := t.(playerCards := [], dealerCards := [], gameOver := false);
    var t1 := AfterDealTo(t0, rand, true);
    var t2 := AfterDealTo(t1, rand, false);
    var t3 := AfterDealTo(t2, rand, true);
    if |t.deck| >= 4 {
      var n := |t.deck|;
      assert t1.deck == t.deck[..n - 1];
      assert t2.deck == t.deck[..n - 2];
      assert t3.deck == t.deck[..n - 3];
    }
  }

  /** The dealer's loop: draw while the dealer's score is below 17. It ends
      because every draw raises the dealer's hard total by at least 1 and the
      score is never below the hard total. The dealer ends on 17 or more. */
  function DealerPlay(t: Table, rand: nat -> nat): (r: Table)
    requires TableOk(t)
    ensures TableOk(r)
    ensures Score(r.dealerCards) >= DealerStandScore
    decreases DealerStandScore - HardTotal(t.dealerCards)
  {
    if Score(t.dealerCards) < DealerStandScore then
      var d := Draw(t.deck, rand, t.cursor);
      ScoreBounds(t.dealerCards);
      HardTotalGrows(t.dealerCards, d.card);
      DealerPlay(t.(deck := d.deck, dealerCards := t.dealerCards + [d.card], cursor := d.cursor), rand)
    else
      t
  }

  /** What the dealer's loop keeps and adds: the cards drawn go behind the
      ones held, each was drawn while the hand scored below 17, and only the
      deck, the dealer's hand and the random position change. */
  lemma {:induction false} DealerPlayDraws(t: Table, rand: nat -> nat)
    requires TableOk(t)
    ensures var r := DealerPlay(t, rand);
      && |r.dealerCards| >= |t.dealerCards| && r.dealerCards[..|t.dealerCards|] == t.dealerCards
      && (forall k :: |t.dealerCards| <= k < |r.dealerCards| ==> Score(r.dealerCards[..k]) < DealerStandScore)
      && r.playerCards == t.playerCards && r.gameOver == t.gameOver && r.isProcessing == t.isProcessing
      && r.winsCount == t.winsCount && r.lossesCount == t.lossesCount
    decreases DealerStandScore - HardTotal(t.dealerCards)
  {
    if Score(t.dealerCards) < DealerStandScore {
      var d := Draw(t.deck, rand, t.cursor);
      ScoreBounds(t.dealerCards);
      HardTotalGrows(t.dealerCards, d.card);
      var next := t.(deck := d.deck, dealerCards := t.dealerCards + [d.card], cursor := d.cursor);
      DealerPlayDraws(next, rand);
      var r := DealerPlay(next, rand);
      assert r == DealerPlay(t, rand);
      var n := |t.dealerCards|;
      assert r.dealerCards[..n] == r.dealerCards[..n + 1][..n];
      forall k | n <= k < |r.dealerCards| ensures Score(r.dealerCards[..k]) < DealerStandScore {
        if k == n {
          assert r.dealerCards[..k] == t.dealerCards;
        }
      }
    }
  }

  /** stand: refused when the round is over or a deal is in progress;
      otherwise the round ends, the dealer plays, and the result is
      counted. */
  function AfterStand(t: Table, rand: nat -> nat): (r: Table)
    requires TableOk(t)
    ensures TableOk(r)
    ensures t.gameOver || t.isProcessing ==> r == t
  {
    if t.gameOver || t.isProcessing then t
    else
      var p := DealerPlay(t.(gameOver := true), rand);
      var s := Record(Stats(p.winsCount, p.lossesCount), RoundOutcome(p));
      p.(winsCount := s.wins, lossesCount := s.losses)
  }

  /** hit: refused when the round is over or a deal is in progress;
      otherwise the player takes one card, and a bust stands for them. */
  function AfterHit(t: Table, rand: nat -> nat): (r: Table)
    requires TableOk(t)
    ensures TableOk(r)
    ensures t.gameOver || t.isProcessing ==> r == t
  {
    if t.gameOver || t.isProcessing then t
    else
      var d := Draw(t.deck, rand, t.cursor);
      var t1 := t.(deck := d.deck, playerCards := t.playerCards + [d.card], cursor := d.cursor);
      if Score(t1.playerCards) > BlackjackScore && !t1.gameOver then AfterStand(t1, rand) else t1
  }

  /** The table right after the four cards of initGame are dealt and the
      deal's guard is lowered, before any stand it has scheduled. */
  function Dealt(t: Table, rand: nat -> nat): (r: Table)
    requires TableOk(t)
    ensures TableOk(r)
  {
    AfterDeal(AfterRebuild(t.(isProcessing := true), rand), rand).(isProcessing := false)
  }

  /** initGame: refused while a deal is in progress; otherwise a fresh
      shuffled deck, the initial deal, and a stand when the player's two
      cards make 21. */
  function AfterInit(t: Table, rand: nat -> nat): (r: Table)
    requires TableOk(t)
    ensures TableOk(r)
    ensures t.isProcessing ==> r == t
  {
    if t.isProcessing then t
    else
      var t1 := Dealt(t, rand);
      if Score(t1.playerCards) == BlackjackScore then AfterStand(t1, rand) else t1
  }

  // ---------------------------------------------------------------------
  // Properties of a round
  // ---------------------------------------------------------------------

  /** A stand that is let through ends the round: the player's hand stays,
      the dealer draws to 17 or more, and the result is counted, one win for
      a win, one loss for a loss and nothing for a push. A player who is
      bust loses whatever the dealer holds. */
  lemma StandResolves(t: Table, rand: nat -> nat)
    requires TableOk(t) && !t.gameOver && !t.isProcessing
    ensures var r := AfterStand(t, rand); var o := RoundOutcome(r);
      && r.gameOver && !r.isProcessing && r.playerCards == t.playerCards
      && Score(r.dealerCards) >= DealerStandScore
      && |r.dealerCards| >= |t.dealerCards| && r.dealerCards[..|t.dealerCards|] == t.dealerCards
      && r.winsCount == t.winsCount + (if IsWin(o) then 1 else 0)
      && r.lossesCount == t.lossesCount + (if IsLoss(o) then 1 else 0)
      && (Score(t.playerCards) > BlackjackScore ==> r.lossesCount == t.lossesCount + 1 && r.winsCount == t.winsCount)
  {
    DealerPlayDraws(t.(gameOver := true), rand);
  }

  /** A hit that is let through gives the player the next drawn card. If the
      hand is still at most 21 the round stays open and nothing else but the
      deck and the random position changes; if it is over 21 the player
      stands at once and the round is counted as a loss. */
  lemma HitStep(t: Table, rand: nat -> nat)
    requires TableOk(t) && !t.gameOver && !t.isProcessing
    ensures var d := Draw(t.deck, rand, t.cursor); var r := AfterHit(t, rand);
      && r.playerCards == t.playerCards + [d.card]
      && (Score(r.playerCards) <= BlackjackScore ==>
            r == t.(deck := d.deck, playerCards := r.playerCards, cursor := d.cursor))
      && (Score(r.playerCards) > BlackjackScore ==>
            r.gameOver && r.lossesCount == t.lossesCount + 1 && r.winsCount == t.winsCount)
  {
    var d := Draw(t.deck, rand, t.cursor);
    var t1 := t.(deck := d.deck, playerCards := t.playerCards + [d.card], cursor := d.cursor);
    if Score(t1.playerCards) > BlackjackScore {
      StandResolves(t1, rand);
    }
  }

  /** The four cards of a new game come off the top of a freshly shuffled
      deck s: s[51] and s[49] to the player, s[50] and s[48] to the dealer. */
  lemma DealtFromFreshDeck(t: Table, rand: nat -> nat)
    requires TableOk(t) && !t.isProcessing
    ensures var s := Rebuilt(rand, t.cursor); var r := Dealt(t, rand);
      && r == t.(deck := s[..48], playerCards := [s[51], s[49]], dealerCards := [s[50], s[48]],
                 gameOver := false, cursor := t.cursor + PicksPerShuffle)
  {
    var t0 := AfterRebuild(t.(isProcessing := true), rand);
    DealOrder(t0, rand);
  }

  /** A new game: the player holds s[51] and s[49] of a freshly shuffled
      deck s, the dealer starts from s[50] and s[48], and the guard is lowered
      again. The two cards never bust, so no bust stand is due during the
      deal. The round is over right away exactly when the two cards make 21,
      and such a hand never loses; otherwise the dealer holds just the two
      cards, 48 cards are left and the counters are untouched. */
  lemma InitialDeal(t: Table, rand: nat -> nat)
    requires TableOk(t) && !t.isProcessing
    ensures var s := Rebuilt(rand, t.cursor); var r := AfterInit(t, rand);
      && r.playerCards == [s[51], s[49]]
      && |r.dealerCards| >= 2 && r.dealerCards[..2] == [s[50], s[48]]
      && !r.isProcessing
      && Score(r.playerCards) <= BlackjackScore
      && (r.gameOver <==> Score(r.playerCards) == BlackjackScore)
      && (r.gameOver ==> r.lossesCount == t.lossesCount && RoundOutcome(r) != PlayerWin)
      && (!r.gameOver ==>
            && r.dealerCards == [s[50], s[48]] && r.deck == s[..48] && r.cursor == t.cursor + PicksPerShuffle
            && r.winsCount == t.winsCount && r.lossesCount == t.lossesCount)
  {
    DealtFromFreshDeck(t, rand);
    var t1 := Dealt(t, rand);
    TwoCardsNeverBust(t1.playerCards);
    if Score(t1.playerCards) == BlackjackScore {
      StandResolves(t1, rand);
    }
  }
}
