/** Cards of a standard 52-card deck as the game stores them: a blackjack
    value, a suit and a colour flag derived from the suit. */
module Cards {

  /** The four suits, ♥ ♦ ♠ ♣. */
  datatype Suit = Hearts | Diamonds | Spades | Clubs

  /** The order in which the deck builder walks the suits. */
  const Suits: seq<Suit> := [Hearts, Diamonds, Spades, Clubs]

  const RanksPerSuit: nat := 13
  const DeckSize: nat := 52

  /** BLACKJACK_SCORE and DEALER_STAND_SCORE. */
  const BlackjackScore: int := 21
  const DealerStandScore: int := 17

  /** A card as the game records it. The rank itself is not kept: ten, jack,
      queen and king all carry the value 10, and an ace carries 11. */
  datatype Card = Card(value: int, suit: Suit, isRed: bool)

  /** The value a rank 1..13 is given when the deck is built. */
  function RankValue(rank: int): (v: int)
    ensures 1 <= rank <= RanksPerSuit ==> 2 <= v <= 11
    ensures v == 11 <==> rank == 1
  {
    if rank > 10 then 10 else if rank == 1 then 11 else rank
  }

  predicate IsRed(s: Suit) {
    s == Hearts || s == Diamonds
  }

  /** The card the deck builder creates for a suit and a rank. */
  function MakeCard(s: Suit, rank: int): Card {
    Card(RankValue(rank), s, IsRed(s))
  }

  /** A card that a deck build can produce: a value from 2 to 11 and the
      colour of its suit. */
  predicate ValidCard(c: Card) {
    2 <= c.value <= 11 && c.isRed == IsRed(c.suit)
  }

  predicate AllValid(cards: seq<Card>) {
    forall c :: c in cards ==> ValidCard(c)
  }
}
