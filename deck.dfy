/** Building, shuffling and drawing from the deck. */
module Deck {
  import opened Cards

  // ---------------------------------------------------------------------
  // Building a fresh deck
  // ---------------------------------------------------------------------

  /** The thirteen cards a suit contributes, ranks 1 to 13 in order. */
  function SuitRun(s: Suit): (run: seq<Card>)
    ensures |run| == RanksPerSuit
  {
    seq(13, j requires 0 <= j < 13 => MakeCard(s, j + 1))
  }

  /** The cards built for the given suits, suit after suit. */
  function DeckOf(suits: seq<Suit>): (d: seq<Card>)
    ensures |d| == RanksPerSuit * |suits|
  {
    if suits == [] then [] else DeckOf(suits[..|suits| - 1]) + SuitRun(suits[|suits| - 1])
  }

  /** The deck as built before it is shuffled. */
  function FreshDeck(): seq<Card> {
    DeckOf(Suits)
  }

  /** How many copies of a card a fresh deck holds: one for each rank that
      maps to the card's value in the card's suit. */
  function Copies(c: Card): nat {
    if !ValidCard(c) then 0 else if c.value == 10 then 4 else 1
  }

  lemma FreshDeckSplit()
    ensures FreshDeck() == SuitRun(Hearts) + SuitRun(Diamonds) + SuitRun(Spades) + SuitRun(Clubs)
  {
    var s4 := Suits;
    var s3, s2, s1: seq<Suit> := [Hearts, Diamonds, Spades], [Hearts, Diamonds], [Hearts];
    assert s4[..3] == s3 && s3[..2] == s2 && s2[..1] == s1 && s1[..0] == [];
    assert DeckOf(s1) == SuitRun(Hearts);
    assert DeckOf(s2) == SuitRun(Hearts) + SuitRun(Diamonds);
    assert DeckOf(s3) == SuitRun(Hearts) + SuitRun(Diamonds) + SuitRun(Spades);
  }

  /** Position 13 * i + (rank - 1) of a deck built over `suits` holds the card
      of suit `suits[i]` and that rank: every (suit, rank) pair has its own
      slot. */
  lemma {:induction false} DeckOfAt(suits: seq<Suit>, i: nat, rank: int)
    requires i < |suits| && 1 <= rank <= RanksPerSuit
    ensures DeckOf(suits)[RanksPerSuit * i + rank - 1] == MakeCard(suits[i], rank)
  {
    var n := |suits| - 1;
    if i < n {
      DeckOfAt(suits[..n], i, rank);
      assert suits[..n][i] == suits[i];
    }
  }

  /** A fresh deck has 52 cards and, for each suit s (in the order ♥ ♦ ♠ ♣)
      and each rank 1..13, the card with value RankValue(rank), suit s and
      the suit's colour at its own position. */
  lemma FreshDeckAt(i: nat, rank: int)
    requires i < |Suits| && 1 <= rank <= RanksPerSuit
    ensures |FreshDeck()| == DeckSize
    ensures FreshDeck()[RanksPerSuit * i + rank - 1] == Card(RankValue(rank), Suits[i], IsRed(Suits[i]))
  {
    DeckOfAt(Suits, i, rank);
  }

  /** A value that occurs at exactly one position occurs once. */
  lemma CountOnce<T>(q: seq<T>, k: nat, x: T)
    requires k < |q| && q[k] == x
    requires forall i :: 0 <= i < |q| && i != k ==> q[i] != x
    ensures multiset(q)[x] == 1
  {
    assert q == q[..k] + [q[k]] + q[k + 1..];
    assert x !in q[..k];
    assert x !in q[k + 1..];
  }

  lemma SuitRunCount(s: Suit, c: Card)
    ensures multiset(SuitRun(s))[c] == if c.suit == s then Copies(c) else 0
  {
    var q := SuitRun(s);
    if c.suit != s || !ValidCard(c) {
      assert c !in q;
    } else if c.value == 10 {
      assert q == q[..9] + [c, c, c, c];
      assert c !in q[..9];
    } else {
      var k := if c.value == 11 then 0 else c.value - 1;
      CountOnce(q, k, c);
    }
  }

  /** Each card appears in a fresh deck exactly as often as its value has
      ranks in its suit: aces and 2..9 once, the value 10 four times (ten,
      jack, queen, king), and nothing else at all. */
  lemma FreshDeckCount(c: Card)
    ensures multiset(FreshDeck())[c] == Copies(c)
  {
    FreshDeckSplit();
    SuitRunCount(Hearts, c);
    SuitRunCount(Diamonds, c);
    SuitRunCount(Spades, c);
    SuitRunCount(Clubs, c);
  }

  /** Every card of a fresh deck is one a build can produce. */
  lemma FreshDeckValid()
    ensures AllValid(FreshDeck())
  {
    forall c | c in FreshDeck() ensures ValidCard(c) {
      FreshDeckCount(c);
    }
  }

  /** Cards drawn from a valid pile are valid. */
  lemma SubPileValid(s: seq<Card>, t: seq<Card>)
    requires multiset(s) <= multiset(t) && AllValid(t)
    ensures AllValid(s)
  {
    forall c | c in s ensures ValidCard(c) {
      assert c in multiset(s);
    }
  }

  // ---------------------------------------------------------------------
  // Fisher–Yates shuffle
  // ---------------------------------------------------------------------

  /** The random choices a shuffle makes: the pick for index i lies in 0..i. */
  predicate ValidPicks(picks: seq<nat>) {
    forall i :: 0 <= i < |picks| ==> picks[i] <= i
  }

  /** Exchange of two positions, in either order or with i == j. */
  function Swap<T>(s: seq<T>, i: nat, j: nat): (r: seq<T>)
    requires i < |s| && j < |s|
    ensures |r| == |s|
  {
    s[i := s[j]][j := s[i]]
  }

  lemma SwapPermutes<T>(s: seq<T>, i: nat, j: nat)
    requires i < |s| && j < |s|
    ensures multiset(Swap(s, i, j)) == multiset(s)
  {
  }

  /** What the shuffle loop does from index i down to index 1. */
  function FisherYates<T>(s: seq<T>, picks: seq<nat>, i: nat): seq<T>
    requires |picks| == |s| && ValidPicks(picks) && i < |s|
    decreases i
  {
    if i == 0 then s else FisherYates(Swap(s, i, picks[i]), picks, i - 1)
  }

  /** The shuffle of `s` under the given picks. */
  function Shuffled<T>(s: seq<T>, picks: seq<nat>): seq<T>
    requires |picks| == |s| && ValidPicks(picks)
  {
    if |s| == 0 then s else FisherYates(s, picks, |s| - 1)
  }

  lemma {:induction false} FisherYatesPermutes<T>(s: seq<T>, picks: seq<nat>, i: nat)
    requires |picks| == |s| && ValidPicks(picks) && i < |s|
    decreases i
    ensures |FisherYates(s, picks, i)| == |s|
    ensures multiset(FisherYates(s, picks, i)) == multiset(s)
  {
    if i > 0 {
      SwapPermutes(s, i, picks[i]);
      FisherYatesPermutes(Swap(s, i, picks[i]), picks, i - 1);
    }
  }

  /** Whatever the random choices, a shuffle keeps the length and the
      multiset of cards: it only reorders. */
  lemma ShuffledPermutes<T>(s: seq<T>, picks: seq<nat>)
    requires |picks| == |s| && ValidPicks(picks)
    ensures |Shuffled(s, picks)| == |s|
    ensures multiset(Shuffled(s, picks)) == multiset(s)
  {
    if |s| > 0 {
      FisherYatesPermutes(s, picks, |s| - 1);
    }
  }

  /** The in-place shuffle: for i from the last index down to 1, swap
      element i with element picks[i]. */
  method Shuffle<T>(a: array<T>, picks: seq<nat>)
    requires |picks| == a.Length && ValidPicks(picks)
    modifies a
    ensures a[..] == Shuffled(old(a[..]), picks)
    ensures multiset(a[..]) == multiset(old(a[..]))
  {
    ShuffledPermutes(a[..], picks);
    if a.Length == 0 {
      // the countdown loop starts at -1 and does nothing
      return;
    }
    var i := a.Length - 1;
    while i > 0
      invariant 0 <= i < a.Length
      invariant FisherYates(a[..], picks, i) == Shuffled(old(a[..]), picks)
      decreases i
    {
      var j := picks[i];
      ghost var before := a[..];
      var t := a[i];
      a[i] := a[j];
      a[j] := t;
      assert a[..] == Swap(before, i, j);
      i := i - 1;
    }
  }

  /** The picks one shuffle of n cards takes from the random source `rand`,
      whose next unused value is at `cursor`. The loop asks for a value at
      i = n-1, n-2, ..., 1 in that order, and Math.floor(Math.random() * (i + 1))
      is modelled as that value reduced into 0..i. Index 0 is never asked for. */
  function Picks(rand: nat -> nat, cursor: nat, n: nat): (picks: seq<nat>)
    ensures |picks| == n && ValidPicks(picks)
  {
    seq(n, i requires 0 <= i < n => if i == 0 then 0 else rand(cursor + (n - 1 - i)) % (i + 1))
  }

  /** How many random values a shuffle of a fresh deck consumes. */
  const PicksPerShuffle: nat := DeckSize - 1

  /** A fresh deck, shuffled with the random values starting at `cursor`. */
  function Rebuilt(rand: nat -> nat, cursor: nat): (d: seq<Card>)
    ensures |d| == DeckSize
    ensures multiset(d) == multiset(FreshDeck())
    ensures AllValid(d)
  {
    FreshDeckValid();
    ShuffledPermutes(FreshDeck(), Picks(rand, cursor, DeckSize));
    SubPileValid(Shuffled(FreshDeck(), Picks(rand, cursor, DeckSize)), FreshDeck());
    Shuffled(FreshDeck(), Picks(rand, cursor, DeckSize))
  }

  // ---------------------------------------------------------------------
  // Drawing
  // ---------------------------------------------------------------------

  /** The card drawn, the deck left and the next unused random position. */
  datatype Drawn = Drawn(card: Card, deck: seq<Card>, cursor: nat)

  /** Draw the last card; an empty deck is first replaced by a freshly
      built and shuffled one, so a draw never fails. */
  function Draw(deck: seq<Card>, rand: nat -> nat, cursor: nat): (r: Drawn)
    ensures |deck| > 0 ==> r.card == deck[|deck| - 1] && r.deck == deck[..|deck| - 1] && r.cursor == cursor
    ensures |deck| == 0 ==> |r.deck| == DeckSize - 1 && r.cursor == cursor + PicksPerShuffle
    ensures |deck| == 0 ==> multiset(r.deck + [r.card]) == multiset(FreshDeck())
    ensures AllValid(deck) ==> AllValid(r.deck) && ValidCard(r.card)
    ensures multiset(deck) <= multiset(FreshDeck()) ==> multiset(r.deck) <= multiset(FreshDeck())
  {
    var d := if |deck| == 0 then Rebuilt(rand, cursor) else deck;
    var next := if |deck| == 0 then cursor + PicksPerShuffle else cursor;
    assert d == d[..|d| - 1] + [d[|d| - 1]];
    Drawn(d[|d| - 1], d[..|d| - 1], next)
  }
}
