/** Whole rounds on decks whose order is fixed in advance. */
module Scenarios {
  import opened Cards
  import opened Deck
  import opened Hand
  import opened Outcomes
  import opened Rules

  /** Five different cards can all lie in one deck at once. */
  lemma FitsInFreshDeck(deck: seq<Card>)
    requires |deck| == 5 && AllValid(deck)
    requires forall i, j :: 0 <= i < j < 5 ==> deck[i] != deck[j]
    ensures multiset(deck) <= multiset(FreshDeck())
  {
    assert deck == [deck[0], deck[1], deck[2], deck[3], deck[4]];
    forall c ensures multiset(deck)[c] <= multiset(FreshDeck())[c] {
      FreshDeckCount(c);
      if c in deck {
        assert ValidCard(c);
      }
    }
  }

  /** The raw sum and the ace count of a two-card hand. */
  lemma TwoCardSums(h: seq<Card>)
    requires |h| == 2
    ensures RawSum(h) == h[0].value + h[1].value
    ensures AceCount(h) == (if h[0].value == 11 then 1 else 0) + (if h[1].value == 11 then 1 else 0)
  {
    assert h[..1][..0] == [];
    assert RawSum(h[..1]) == h[0].value;
  }

  /** A dealer holding 10 and 6 with one 10 left in the deck draws it,
      reaches 26 and stops. */
  lemma DealerDrawsLastTen(s: Table, rand: nat -> nat)
    requires TableOk(s) && |s.dealerCards| == 2 && |s.deck| == 1
    requires s.dealerCards[0].value == 10 && s.dealerCards[1].value == 6 && s.deck[0].value == 10
    ensures var r := DealerPlay(s, rand);
      && r == s.(deck := [], dealerCards := s.dealerCards + [s.deck[0]])
      && Score(r.dealerCards) == 26
  {
    TwoCardSums(s.dealerCards);
    var d3 := s.dealerCards + [s.deck[0]];
    assert d3[..2] == s.dealerCards;
    assert RawSum(d3) == 26 && AceCount(d3) == 0;
    assert Draw(s.deck, rand, s.cursor) == Drawn(s.deck[0], [], s.cursor);
    var s2 := s.(deck := [], dealerCards := d3);
    assert Score(d3) == 26;
    assert DealerPlay(s2, rand) == s2;
  }

  /** A stand after a deal from five cards whose values, from the top, are
      10 to the player, 10 to the dealer, 9 to the player, 6 to the dealer,
      and then 10: the player has 19, the dealer draws the last card on 16,
      busts with 26, and the player's win is counted. */
  lemma DealerDrawsAndBusts(t: Table, rand: nat -> nat)
    requires TableOk(t) && !t.isProcessing && |t.deck| == 5
    requires t.deck[4].value == 10 && t.deck[3].value == 10 && t.deck[2].value == 9
    requires t.deck[1].value == 6 && t.deck[0].value == 10
    ensures var r := AfterStand(AfterDeal(t, rand), rand);
      && r.playerCards == [t.deck[4], t.deck[2]] && Score(r.playerCards) == 19
      && r.dealerCards == [t.deck[3], t.deck[1], t.deck[0]] && Score(r.dealerCards) == 26
      && RoundOutcome(r) == DealerBust && r.deck == [] && r.gameOver
      && r.winsCount == t.winsCount + 1 && r.lossesCount == t.lossesCount
  {
    DealOrder(t, rand);
    var t1 := AfterDeal(t, rand);
    TwoCardSums(t1.playerCards);
    assert t1.playerCards == [t.deck[4], t.deck[2]] && t1.dealerCards == [t.deck[3], t.deck[1]];
    assert Score(t1.playerCards) == 19;
    assert t1.deck == [t.deck[0]];
    var s := t1.(gameOver := true);
    DealerDrawsLastTen(s, rand);
    var s2 := DealerPlay(s, rand);
    assert RoundOutcome(s2) == DealerBust;
  }

  /** The same deal with a 7 as the dealer's second card: the dealer stands
      on 17 without drawing, and the player's 19 wins. */
  lemma DealerStandsOnSeventeenCards(t: Table, rand: nat -> nat)
    requires TableOk(t) && !t.isProcessing && |t.deck| == 5
    requires t.deck[4].value == 10 && t.deck[3].value == 10 && t.deck[2].value == 9
    requires t.deck[1].value == 7
    ensures var r := AfterStand(AfterDeal(t, rand), rand);
      && r.playerCards == [t.deck[4], t.deck[2]] && Score(r.playerCards) == 19
      && r.dealerCards == [t.deck[3], t.deck[1]] && Score(r.dealerCards) == 17
      && RoundOutcome(r) == PlayerWin && r.deck == [t.deck[0]] && r.gameOver
      && r.winsCount == t.winsCount + 1 && r.lossesCount == t.lossesCount
  {
    DealOrder(t, rand);
    var t1 := AfterDeal(t, rand);
    TwoCardSums(t1.playerCards);
    TwoCardSums(t1.dealerCards);
    assert t1.playerCards == [t.deck[4], t.deck[2]] && t1.dealerCards == [t.deck[3], t.deck[1]];
    assert Score(t1.playerCards) == 19 && Score(t1.dealerCards) == 17;
    assert t1.deck == [t.deck[0]];
    var s := t1.(gameOver := true);
    assert DealerPlay(s, rand) == s;
    assert RoundOutcome(s) == PlayerWin;
    assert AfterStand(t1, rand) == s.(winsCount := t.winsCount + 1);
  }

  /** The deck holds, from the top, 10♣ 10♦ 9♥ 6♥ K♠: player 10, dealer 10,
      player 9, dealer 6, and the king next. The player stands on 19, the
      dealer must draw on 16, reaches 26 and busts, and the win is counted. */
  lemma DealerBustRound(t: Table, rand: nat -> nat)
    requires t.deck == [Card(10, Spades, false), Card(6, Hearts, true), Card(9, Hearts, true),
                        Card(10, Diamonds, true), Card(10, Clubs, false)]
    requires t.playerCards == [] && t.dealerCards == [] && !t.isProcessing
    ensures TableOk(t)
    ensures var r := AfterStand(AfterDeal(t, rand), rand);
      && r.playerCards == [Card(10, Clubs, false), Card(9, Hearts, true)]
      && r.dealerCards == [Card(10, Diamonds, true), Card(6, Hearts, true), Card(10, Spades, false)]
      && RoundOutcome(r) == DealerBust
      && r.winsCount == t.winsCount + 1 && r.lossesCount == t.lossesCount
  {
    FitsInFreshDeck(t.deck);
    DealerDrawsAndBusts(t, rand);
  }

  /** The same deal with a 7 as the dealer's second card: the dealer stands
      on 17 without drawing, and the player's 19 wins. */
  lemma DealerStandsOnSeventeen(t: Table, rand: nat -> nat)
    requires t.deck == [Card(10, Spades, false), Card(7, Hearts, true), Card(9, Hearts, true),
                        Card(10, Diamonds, true), Card(10, Clubs, false)]
    requires t.playerCards == [] && t.dealerCards == [] && !t.isProcessing
    ensures TableOk(t)
    ensures var r := AfterStand(AfterDeal(t, rand), rand);
      && r.dealerCards == [Card(10, Diamonds, true), Card(7, Hearts, true)]
      && RoundOutcome(r) == PlayerWin
      && r.winsCount == t.winsCount + 1 && r.lossesCount == t.lossesCount
  {
    FitsInFreshDeck(t.deck);
    DealerStandsOnSeventeenCards(t, rand);
  }

  /** Both hands are a two-card 21: equal scores are checked before the
      blackjack rule, so the round is a push and neither counter moves. */
  lemma BlackjackAgainstBlackjackIsPush(t: Table, rand: nat -> nat)
    requires TableOk(t) && !t.isProcessing && |t.deck| >= 4
    requires var n := |t.deck|;
      && t.deck[n - 1].value == 10 && t.deck[n - 2].value == 11
      && t.deck[n - 3].value == 11 && t.deck[n - 4].value == 10
    ensures var r := AfterStand(AfterDeal(t, rand), rand);
      && Score(r.playerCards) == 21 && |r.playerCards| == 2 && Score(r.dealerCards) == 21
      && RoundOutcome(r) == Push
      && r.winsCount == t.winsCount && r.lossesCount == t.lossesCount
  {
    DealOrder(t, rand);
    var t1 := AfterDeal(t, rand);
    TwoCardSums(t1.playerCards);
    TwoCardSums(t1.dealerCards);
    var s := t1.(gameOver := true);
    assert DealerPlay(s, rand) == s;
    assert AfterStand(t1, rand) == s;
  }
}
