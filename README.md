# Blackjack round engine — a verified model

The model covers the rules engine of a single-player browser blackjack game (`script.js`), with the DOM and the timers stripped away. It has three layers:

- **Values.** The layer covers cards and how the deck is built (`Cards`, `Deck`). It also covers the in-place Fisher–Yates shuffle, drawing with refill, the hand scorer (`Hand`), and the ordered outcome rules with the win/loss tally (`Outcomes`).
- **The round as a pure state machine.** What `initGame`, `dealInitialCards`, `hit` and `stand` (with the dealer's loop) do to a `Table` value. This value holds the deck, the two hands, `gameOver`, `isProcessing`, the two counters and the position in the random source (`Rules`). All round lemmas are stated over it.
- **The game object.** `Game.Engine` is a class whose fields are the `state` fields the rules use. Its methods change those fields in place:
  - pushes while building the deck;
  - swaps in the shuffle loop (on an array);
  - pops when drawing;
  - the `while` loops of the scorer and of the dealer.

  Six methods are proved to keep `Valid()` and to leave `State()` equal to the matching `Rules` function applied to the old state: `CreateAndShuffleDeck`, `DealCard`, `DealInitialCards`, `InitGame`, `Hit` and `Stand`. The other four are tied to something else:
  - `DrawCard` returns what `Deck.Draw` gives for the old deck and random position, and keeps `Valid()`;
  - `DetermineWinner` returns `Outcomes.Resolve` of the two scores and updates the counters as `Outcomes.Record` says, and keeps `Valid()`;
  - `BuildDeck` leaves the deck equal to `Deck.FreshDeck()`;
  - `PopCard` removes and returns the deck's last card.

  Each of these four changes only the fields it names.

`Math.random` is not modelled. The object holds a random source `rand: nat -> nat` and a cursor `randCursor` pointing at the next unused value. The shuffle reads `rand` values from `randCursor` on, each turned into an index between 0 and i. It consumes 51 values per shuffle. The shuffle itself works for any sequence of picks with `0 <= picks[i] <= i`.

The timers are made synchronous, in the order the callbacks run:

- `initGame` raises `isProcessing`, builds and shuffles, deals, and lowers `isProcessing`. It then stands if the deal gave the player 21, which is the stand `dealInitialCards` schedules one second later.
- A hit that takes the player over 21 stands at once. This is the stand `updateUI` schedules (script.js:213-214).
- During the deal no bust stand can be due: two cards never score over 21 (`Hand.TwoCardsNeverBust`).

Two consequences of the order of the checks in the code:

- **The dealer stands on 17.** The dealer draws only while below 17 (script.js:258), so a dealer holding 10 and 7 stands (`Scenarios.DealerStandsOnSeventeen`).
- **A two-card 21 against a 21 is a push.** Equal scores are tested before the blackjack rule (script.js:286-288).

## Model

| member | source | states |
|---|---|---|
| Cards.RankValue | script.js:92 | a rank 1..13 gets a value in 2..11, and the value is 11 exactly for rank 1 |
| Deck.FreshDeckAt | script.js:85-97 | a built deck has 52 cards; the slot for suit i (♥ ♦ ♠ ♣ order) and rank j holds value `j>10 ? 10 : (j==1 ? 11 : j)`, that suit, and red exactly for ♥ and ♦ |
| Deck.FreshDeckCount | script.js:85-97 | each card occurs in a built deck once per rank that maps to it: aces and 2..9 once per suit, value 10 four times per suit, anything else never |
| Deck.FreshDeckValid | script.js:85-97 | every card of a built deck has a value 2..11 and its suit's colour |
| Deck.DeckOfAt | script.js:89-96 | building over a list of suits puts each (suit, rank) pair at its own position, suit after suit |
| Deck.FisherYatesPermutes | script.js:103-106 | the countdown swap loop from any index keeps length and multiset, for any picks with 0 ≤ j ≤ i |
| Deck.ShuffledPermutes | script.js:102-107 | a shuffle keeps length and multiset of cards for any valid picks |
| Deck.Shuffle | script.js:102-107 | the in-place array shuffle ends with the array equal to the specified shuffle of its old contents, and the same multiset |
| Deck.Picks | script.js:103-104 | the random picks count one per index, each between 0 and i |
| Deck.Rebuilt | script.js:85-100 | a rebuilt, shuffled deck has 52 cards, the multiset of a built deck, and only valid cards |
| Deck.Draw | script.js:146-151 | a non-empty deck gives up its last card and keeps the rest, using no randomness; an empty deck is rebuilt, leaving 51 cards that with the drawn one make a full deck; validity and the bound by a full deck are kept |
| Game.Engine.BuildDeck | script.js:86-97 | the push loops leave the deck equal to the built deck and change nothing else |
| Game.Engine.CreateAndShuffleDeck | script.js:85-100 | the deck becomes the rebuilt, shuffled deck; 51 random values are used; nothing else changes |
| Game.Engine.DrawCard | script.js:146-151 | returns exactly what `Deck.Draw` specifies and changes only the deck and the random position |
| Hand.AceCount | script.js:155 | the number of aces is at most the number of cards |
| Hand.SoftenClosedForm | script.js:157-160 | the softening loop subtracts 10 for each ace it softens, with the count in closed form: none at 21 or less, else enough to reach 21 but no more than there are aces |
| Hand.ScoreBounds | script.js:153-163 | score = raw sum − 10·k with k ≤ aces; score ≤ 21 or every ace softened; no ace softened needlessly; score ≥ hard total |
| Hand.CalculateScore | script.js:153-163 | the while loop returns the specified score |
| Hand.HardTotalGrows | script.js:259 | a card from a deck build raises the hard total by its value with an ace as 1, so by at least 1 |
| Hand.TwoCardsNeverBust | script.js:109-120 | a hand of at most two built cards scores at most 21 |
| Hand.ScoreExamples | script.js:153-163 | A+K = 21, A+A = 12, A+A+9 = 21, 10+10+5 = 25 |
| Outcomes.Resolve | script.js:279-299 | the ordered rules: the player-bust label iff the player is over 21; the dealer-bust label iff the player is not and the dealer is; the player wins iff not bust and (dealer bust or higher); a loss iff bust or (dealer not bust and higher); a push iff nobody bust and scores equal; the blackjack label iff a two-card 21 against a dealer below 21 |
| Outcomes.Record | script.js:281-298 | a push changes no counter; otherwise exactly one counter rises by one, wins on a win and losses on a loss |
| Rules.Initial | script.js:33-46 | the starting table holds only valid cards |
| Rules.AfterRebuild | script.js:85-100 | a rebuild gives a 52-card deck with a full deck's cards, moves the random position by 51, changes nothing else and keeps validity |
| Rules.AfterDealTo | script.js:130-144 | dealing one card keeps the table valid |
| Rules.AfterDeal | script.js:109-128 | the initial deal keeps the table valid |
| Rules.DealOrder | script.js:109-120 | the deal clears the hands and the round flag; each hand gets 2 cards, in the order player, dealer, player, dealer, from the top of the deck; the guard and counters are kept |
| Rules.DealerPlay | script.js:257-265 | the dealer's loop ends, with a dealer score of at least 17 |
| Rules.DealerPlayDraws | script.js:257-265 | the dealer only adds cards behind the held ones, each drawn while the hand was below 17; the player's hand, flags and counters are unchanged |
| Rules.AfterStand | script.js:242-271 | the table stays valid; a stand while the round is over or a deal is in progress changes nothing |
| Rules.AfterHit | script.js:218-240 | the table stays valid; a hit while the round is over or a deal is in progress changes nothing |
| Rules.Dealt | script.js:61-70 | the table after the deal is valid |
| Rules.AfterInit | script.js:61-70 | the table stays valid; a new game while a deal is in progress changes nothing |
| Rules.StandResolves | script.js:242-271 | an admitted stand ends the round, keeps the player's hand, lets the dealer draw on top of their hand to 17 or more, and counts the result (+1 win, +1 loss, nothing on a push); a bust player always loses |
| Rules.HitStep | script.js:218-240 | an admitted hit appends the next drawn card; at 21 or less only the deck and random position change too; over 21 the player stands at once and loses |
| Rules.DealtFromFreshDeck | script.js:61-70 | a new game deals s[51], s[49] to the player and s[50], s[48] to the dealer from the freshly shuffled deck s, leaving s[..48] |
| Rules.InitialDeal | script.js:61-70 | a new game: player holds s[51], s[49], dealer starts from s[50], s[48]; the player never busts on the deal; the round is over at once exactly when the two cards make 21, and then the player does not lose; otherwise the counters are untouched |
| Game.Engine.constructor | script.js:33-46 | the object starts as the initial table |
| Game.Engine.PopCard | script.js:150 | the pop returns the old last card and leaves the deck without it, changing nothing else |
| Game.Engine.DealCard | script.js:130-144 | one drawn card goes to the named hand, as `Rules.AfterDealTo` says |
| Game.Engine.DealInitialCards | script.js:109-128 | the four-card deal as `Rules.AfterDeal` says; reports whether the player has 21 |
| Game.Engine.InitGame | script.js:61-70 | the new game as `Rules.AfterInit` says, including the stand on a dealt 21 |
| Game.Engine.Hit | script.js:218-240 | the hit as `Rules.AfterHit` says, including the immediate stand on a bust |
| Game.Engine.Stand | script.js:242-271 | the stand and the dealer's loop as `Rules.AfterStand` says |
| Game.Engine.DetermineWinner | script.js:273-299 | returns the outcome of the hands and updates the counters as `Outcomes.Record` says, changing nothing else |
| Scenarios.FitsInFreshDeck | script.js:85-97 | five different built cards can lie in one deck |
| Scenarios.TwoCardSums | script.js:154-155 | the raw sum and ace count of a two-card hand |
| Scenarios.DealerDrawsLastTen | script.js:257-265 | a dealer on 10 and 6 with one 10 left draws it, reaches 26 and stops |
| Scenarios.DealerDrawsAndBusts | script.js:109-128 | a deal of 10, 10, 9, 6 then a 10: player 19, the dealer draws on 16 to 26 and busts, and a win is counted |
| Scenarios.DealerStandsOnSeventeenCards | script.js:257-265 | the same deal with a 7 for the dealer: the dealer stands on 17 and the player's 19 wins |
| Scenarios.DealerBustRound | script.js:242-299 | the concrete deck 10♣ 10♦ 9♥ 6♥ K♠ (top first) ends with the dealer bust and a counted win |
| Scenarios.DealerStandsOnSeventeen | script.js:242-299 | the concrete deck with 7♥ as the dealer's second card ends with the dealer on 17 and the player winning |
| Scenarios.BlackjackAgainstBlackjackIsPush | script.js:286-288 | a two-card 21 against a two-card 21 is a push with no counter change |
| Clicks.Listen | script.js:395-396 | the listener admits a click exactly when CLICK_DELAY has passed and no deal is in progress, and stamps the click's time |
| Clicks.ClickNeverRunsAsWritten | script.js:220 | as written, an admitted click on Hit or Stand is always refused by the handler's own time check |
| Clicks.ClickRunsWhenDue | script.js:395-397 | with the time check left to the listener, a click runs exactly when it is due, the round is open and no deal is in progress |
| Clicks.ScheduledStandPasses | script.js:244 | the two stands the game schedules itself fire at fixed delays after the click that started them. The bust stand comes 100 + 800 ms after the hit click (delays at lines 239 and 214). The stand on a dealt 21 comes 3 · 300 + 1000 ms after the new-game click (lines 2, 118-120 and 126). At either time, the handler's time check passes exactly when the round guards do |

## Left out

- DOM rendering and button state (`resetUI`, the element updates in `updateUI`, `createCardElement`, `disableButtons`, `enableButtons`, the `pulse` class): these are presentation only. In `createCardElement` the symbol cases for 12 and 13 can never match, because no card has those values. Every value-10 card is therefore shown as "K". The model keeps no rank, so it cannot show this.
- Timers: the paced `setTimeout`/`setInterval` steps become synchronous steps in callback order. The interleavings the timers allow are not modelled. For example, the player can hit again during the 800 ms before the bust stand, and `initGame` can re-enter while the dealer's interval runs.
- Game.Engine.Hit: models the handler without its `Date.now()` time check. That check, and the listener's, exist only in `Clicks`.
- Game.Engine.Stand: same as Hit; the time check exists only in `Clicks`.
- Persistence: `saveStats` and `loadStats` use localStorage and JSON. Only the in-memory counters are kept.
- Platform code: `vibrate`, `handleShake`, `checkCompatibility`, the loading-screen progress, the touch handler and the keep-awake plugin.
- Randomness: the random source is a parameter. Reducing a value into 0..i stands in for `Math.floor(Math.random() * (i + 1))`. Floating point is not modelled.
- Game.Engine.CreateAndShuffleDeck: it shuffles a fresh array holding the built cards, then stores the result as the deck. script.js shuffles the `state.deck` array itself. No other reference to that array exists while the shuffle runs, so the difference cannot be observed.
- `isLegacyDevice` and `isInitialized` are display and start-up flags. They do not affect the rules.

## Findings

| source | as written | input that shows it | evidently intended | confidence | as-written member | corrected member |
|---|---|---|---|---|---|---|
| script.js:220, script.js:244, script.js:395-396 | the click listener sets `lastClickTime` to now and then calls `hit` or `stand`, which returns when `now - lastClickTime < CLICK_DELAY` | any click the listener admits, e.g. at time 1000 with `lastClickTime` 0: the handler sees a 0 ms gap and returns | one debounce, in the listener; the handler keeps only the `gameOver`/`isProcessing` guard | high (not executed) | Clicks.ClickNeverRunsAsWritten | Clicks.ClickRunsWhenDue |
