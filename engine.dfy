/** The game engine: the module-level game state of script.js, kept in
    one object whose methods change it in place. Each method that carries
    out a whole step of a round is proved to do to the state what the
    matching function of Rules does to a table; the smaller steps are tied
    to the Deck and Outcomes functions they carry out. */
module Game {
  import opened Cards
  import opened Deck
  import opened Hand
  import opened Outcomes
  import opened Rules

  class Engine {
    var deck: seq<Card>
    var playerCards: seq<Card>
    var dealerCards: seq<Card>
    var gameOver: bool
    var isProcessing: bool
    var winsCount: nat
    var lossesCount: nat

    /** The random source standing in for Math.random: the n-th value the
        game asks for is rand(n); randCursor is the next n. */
    const rand: nat -> nat
    var randCursor: nat

    ghost function State(): Table
      reads this
    {
      Table(deck, playerCards, dealerCards, gameOver, isProcessing, winsCount, lossesCount, randCursor)
    }

    ghost predicate Valid()
      reads this
    {
      TableOk(State())
    }

    /** The state before the first round: no cards anywhere, both flags
        down, both counters at zero. */
    constructor (rand: nat -> nat)
      ensures Valid() && State() == Initial() && this.rand == rand
    {
      this.rand := rand;
      deck, playerCards, dealerCards := [], [], [];
      gameOver, isProcessing := false, false;
      winsCount, lossesCount := 0, 0;
      randCursor := 0;
    }

    /** The building half of createAndShuffleDeck: empty the deck, then
        push the cards suit by suit (♥ ♦ ♠ ♣) and rank by rank (1 to 13). */
    method BuildDeck()
      modifies this
      ensures deck == FreshDeck()
      ensures State() == old(State()).(deck := deck)
    {
      deck := [];
      for si := 0 to |Suits|
        invariant deck == DeckOf(Suits[..si])
        invariant State() == old(State()).(deck := deck)
      {
        var suit := Suits[si];
        for j := 1 to 14
          invariant deck == DeckOf(Suits[..si]) + SuitRun(suit)[..j - 1]
          invariant State() == old(State()).(deck := deck)
        {
          deck := deck + [Card(if j > 10 then 10 else if j == 1 then 11 else j, suit, suit == Hearts || suit == Diamonds)];
          assert SuitRun(suit)[..j] == SuitRun(suit)[..j - 1] + [MakeCard(suit, j)];
        }
        assert Suits[..si + 1][..si] == Suits[..si];
      }
      assert Suits[..|Suits|] == Suits;
    }

    /** createAndShuffleDeck: build the 52 cards, then shuffle them in
        place. */
    method CreateAndShuffleDeck()
      requires Valid()
      modifies this
      ensures Valid() && State() == AfterRebuild(old(State()), rand)
    {
      BuildDeck();
      var built := deck;
      var cards := new Card[|built|](i requires 0 <= i < |built| => built[i]);
      assert cards[..] == FreshDeck();
      Shuffle(cards, Picks(rand, randCursor, |built|));
      assert cards[..] == Rebuilt(rand, randCursor);
      deck := cards[..];
      randCursor := randCursor + PicksPerShuffle;
      assert State() == AfterRebuild(old(State()), rand);
    }

    /** drawCard: rebuild the deck if it is empty, then pop its last card. */
    method DrawCard() returns (card: Card)
      requires Valid()
      modifies this
      ensures Valid()
      ensures Drawn(card, deck, randCursor) == Draw(old(deck), rand, old(randCursor))
      ensures State() == old(State()).(deck := deck, cursor := randCursor)
    {
      ghost var d := Draw(deck, rand, randCursor);
      ghost var t := State();
      if |deck| == 0 {
        CreateAndShuffleDeck();
      }
      card := PopCard();
      assert card == d.card && deck == d.deck && randCursor == d.cursor;
      assert State() == t.(deck := d.deck, cursor := d.cursor);
    }

    /** The deck's pop: remove and return the last card. */
    method PopCard() returns (card: Card)
      requires |deck| > 0
      modifies this
      ensures card == old(deck)[|old(deck)| - 1] && deck == old(deck)[..|old(deck)| - 1]
      ensures State() == old(State()).(deck := deck)
    {
      card := deck[|deck| - 1];
      deck := deck[..|deck| - 1];
    }

    /** dealCardWithDelay, without the delay: one card to the player or to
        the dealer. */
    method DealCard(toPlayer: bool)
      requires Valid()
      modifies this
      ensures Valid() && State() == AfterDealTo(old(State()), rand, toPlayer)
    {
      ghost var d := Draw(deck, rand, randCursor);
      var card := DrawCard();
      assert card == d.card && deck == d.deck && randCursor == d.cursor;
      if toPlayer {
        playerCards := playerCards + [card];
      } else {
        dealerCards := dealerCards + [card];
      }
    }

    /** dealInitialCards: clear the hands, reopen the round and deal player,
        dealer, player, dealer. Says whether the player's two cards make 21,
        in which case a stand is due once the deal is finished. */
    method DealInitialCards() returns (standDue: bool)
      requires Valid()
      modifies this
      ensures Valid() && State() == AfterDeal(old(State()), rand)
      ensures standDue == (Score(playerCards) == BlackjackScore)
    {
      playerCards := [];
      dealerCards := [];
      gameOver := false;
      DealCard(true);
      DealCard(false);
      DealCard(true);
      DealCard(false);
      var playerScore := CalculateScore(playerCards);
      standDue := playerScore == BlackjackScore;
    }

    /** initGame: refused while a deal is in progress; otherwise raise the
        guard, build and shuffle a deck, deal, lower the guard, and then
        stand if the deal gave the player 21. */
    method InitGame()
      requires Valid()
      modifies this
      ensures Valid() && State() == AfterInit(old(State()), rand)
    {
      if isProcessing {
        return;
      }
      ghost var t := State();
      isProcessing := true;
      CreateAndShuffleDeck();
      var standDue := DealInitialCards();
      isProcessing := false;
      assert State() == Dealt(t, rand);
      if standDue {
        Stand();
      }
    }

    /** hit: refused when the round is over or a deal is in progress;
        otherwise the player takes a card, and a bust makes the player
        stand. */
    method Hit()
      requires Valid()
      modifies this
      ensures Valid() && State() == AfterHit(old(State()), rand)
    {
      if gameOver || isProcessing {
        return;
      }
      var card := DrawCard();
      playerCards := playerCards + [card];
      var playerScore := CalculateScore(playerCards);
      if playerScore > BlackjackScore && !gameOver {
        Stand();
      }
    }

    /** stand: refused when the round is over or a deal is in progress;
        otherwise end the round, let the dealer draw while below 17, and
        settle the result. */
    method Stand()
      requires Valid()
      modifies this
      ensures Valid() && State() == AfterStand(old(State()), rand)
    {
      if gameOver || isProcessing {
        return;
      }
      gameOver := true;
      ghost var start := State();
      var dealerScore := CalculateScore(dealerCards);
      while dealerScore < DealerStandScore
        invariant Valid()
        invariant dealerScore == Score(dealerCards)
        invariant DealerPlay(State(), rand) == DealerPlay(start, rand)
        decreases DealerStandScore - HardTotal(dealerCards)
      {
        ScoreBounds(dealerCards);
        ghost var before := State();
        var card := DrawCard();
        HardTotalGrows(dealerCards, card);
        dealerCards := dealerCards + [card];
        assert State() == before.(deck := deck, dealerCards := dealerCards, cursor := randCursor);
        dealerScore := CalculateScore(dealerCards);
      }
      var _ := DetermineWinner();
    }

    /** determineWinner: apply the ordered rules to the two scores and count
        the result. */
    method DetermineWinner() returns (o: Outcome)
      requires Valid()
      modifies this
      ensures Valid()
      ensures o == RoundOutcome(old(State()))
      ensures State() == old(State()).(winsCount := Record(Stats(old(winsCount), old(lossesCount)), o).wins,
                                       lossesCount := Record(Stats(old(winsCount), old(lossesCount)), o).losses)
    {
      var playerScore := CalculateScore(playerCards);
      var dealerScore := CalculateScore(dealerCards);
      if playerScore > BlackjackScore {
        o := PlayerBust;
        lossesCount := lossesCount + 1;
      } else if dealerScore > BlackjackScore {
        o := DealerBust;
        winsCount := winsCount + 1;
      } else if playerScore == dealerScore {
        o := Push;
      } else if playerScore == BlackjackScore && |playerCards| == 2 {
        o := PlayerBlackjack;
        winsCount := winsCount + 1;
      } else if playerScore > dealerScore {
        o := PlayerWin;
        winsCount := winsCount + 1;
      } else {
        o := DealerWin;
        lossesCount := lossesCount + 1;
      }
    }
  }
}
