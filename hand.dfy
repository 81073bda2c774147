/** The hand scorer: sum the values, then count aces down from 11 to 1, one
    at a time, while the total is over 21. */
module Hand {
  import opened Cards

  /** The sum of the values, every ace counted as 11. */
  function RawSum(cards: seq<Card>): int {
    if cards == [] then 0 else RawSum(cards[..|cards| - 1]) + cards[|cards| - 1].value
  }

  /** The number of cards of value 11. */
  function AceCount(cards: seq<Card>): (n: nat)
    ensures n <= |cards|
  {
    if cards == [] then 0
    else AceCount(cards[..|cards| - 1]) + (if cards[|cards| - 1].value == 11 then 1 else 0)
  }

  /** The total with every ace counted as 1. */
  function HardTotal(cards: seq<Card>): int {
    RawSum(cards) - 10 * AceCount(cards)
  }

  /** The softening loop: while over 21 and an ace is left, count one ace as
      1 instead of 11. */
  function Soften(total: int, aces: nat): int
    decreases aces
  {
    if total > BlackjackScore && aces > 0 then Soften(total - 10, aces - 1) else total
  }

  /** The score of a hand. */
  function Score(cards: seq<Card>): int {
    Soften(RawSum(cards), AceCount(cards))
  }

  /** How many aces the softening loop turns into ones, in closed form: none
      when the total is at most 21, otherwise as many as are needed to reach
      21 or less (the rounded-up tenth of the excess), but no more than there
      are. */
  function AcesSoftened(total: int, aces: nat): nat {
    if total <= BlackjackScore then 0
    else if aces <= (total - 12) / 10 then aces
    else (total - 12) / 10
  }

  lemma {:induction false} SoftenClosedForm(total: int, aces: nat)
    decreases aces
    ensures Soften(total, aces) == total - 10 * AcesSoftened(total, aces)
  {
    if total > BlackjackScore && aces > 0 {
      SoftenClosedForm(total - 10, aces - 1);
    }
  }

  /** The bounds of the scorer. The score is the raw sum minus 10 for each of
      k softened aces, where k is at most the number of aces; the score is at
      most 21 or every ace was softened; no ace was softened needlessly
      (undoing any one softening would take the hand over 21); and the score
      is never below the hard total. */
  lemma ScoreBounds(cards: seq<Card>)
    ensures var k := AcesSoftened(RawSum(cards), AceCount(cards));
      && k <= AceCount(cards)
      && Score(cards) == RawSum(cards) - 10 * k
      && (Score(cards) <= BlackjackScore || k == AceCount(cards))
      && (k > 0 ==> Score(cards) + 10 > BlackjackScore)
      && HardTotal(cards) <= Score(cards)
  {
    SoftenClosedForm(RawSum(cards), AceCount(cards));
  }

  /** calculateScore: the sum and the ace count, then the softening loop. */
  method CalculateScore(cards: seq<Card>) returns (score: int)
    ensures score == Score(cards)
  {
    score := RawSum(cards);
    var aces := AceCount(cards);
    while score > BlackjackScore && aces > 0
      invariant Soften(score, aces) == Score(cards)
      decreases aces
    {
      score := score - 10;
      aces := aces - 1;
    }
  }

  lemma AppendLast(cards: seq<Card>, c: Card)
    ensures (cards + [c])[..|cards|] == cards
  {
  }

  /** Taking a card raises the hard total by the card's value with an ace
      counted as 1; for a card a deck build produces that is at least 1. */
  lemma HardTotalGrows(cards: seq<Card>, c: Card)
    requires ValidCard(c)
    ensures HardTotal(cards + [c]) == HardTotal(cards) + (if c.value == 11 then 1 else c.value)
    ensures HardTotal(cards + [c]) >= HardTotal(cards) + 1
  {
    AppendLast(cards, c);
  }

  /** A hand of at most two cards a deck can produce never scores over 21:
      two aces score 12. */
  lemma {:induction false} TwoCardsNeverBust(cards: seq<Card>)
    requires |cards| <= 2 && AllValid(cards)
    ensures Score(cards) <= BlackjackScore
  {
    if |cards| == 2 {
      assert cards[..1][..0] == [];
      assert cards[0] in cards && cards[1] in cards;
      assert RawSum(cards[..1]) == cards[0].value;
      assert RawSum(cards) == cards[0].value + cards[1].value;
    } else if |cards| == 1 {
      assert cards[..0] == [];
      assert cards[0] in cards;
      assert RawSum(cards) == cards[0].value;
    }
  }

  /** The scorer on the hands of the worked examples: ace and king make 21,
      two aces 12, two aces and a nine 21, and 10, 10, 5 is a bust at 25. */
  lemma ScoreExamples(s: Suit)
    ensures Score([Card(11, s, IsRed(s)), Card(10, s, IsRed(s))]) == 21
    ensures Score([Card(11, s, IsRed(s)), Card(11, s, IsRed(s))]) == 12
    ensures Score([Card(11, s, IsRed(s)), Card(11, s, IsRed(s)), Card(9, s, IsRed(s))]) == 21
    ensures Score([Card(10, s, IsRed(s)), Card(10, s, IsRed(s)), Card(5, s, IsRed(s))]) == 25
  {
    var a, k, n, f := Card(11, s, IsRed(s)), Card(10, s, IsRed(s)), Card(9, s, IsRed(s)), Card(5, s, IsRed(s));
    assert [a, k][..1] == [a] && [a, a][..1] == [a] && [a][..0] == [];
    assert [a, a, n][..2] == [a, a] && [k, k, f][..2] == [k, k] && [k, k][..1] == [k] && [k][..0] == [];
    assert RawSum([a]) == 11 && AceCount([a]) == 1 && RawSum([k]) == 10 && AceCount([k]) == 0;
    assert RawSum([k, k]) == 20 && AceCount([k, k]) == 0;
    assert RawSum([a, k]) == 21 && AceCount([a, k]) == 1;
    assert RawSum([a, a]) == 22 && AceCount([a, a]) == 2;
    assert RawSum([a, a, n]) == 31 && AceCount([a, a, n]) == 2;
    assert RawSum([k, k, f]) == 25 && AceCount([k, k, f]) == 0;
  }
}
