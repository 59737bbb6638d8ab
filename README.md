# Blackjack game engine in Dafny

A model of the engine of a console Blackjack game written in Java: cards and
their point values, the 52-card deck, hands with their raw and Ace-adjusted
totals, the player's balance, bet and hit-or-stay turn, the dealer's
draw-to-17 turn, and the round loop (bet, deal, turns, settlement,
replacing a low deck).

The Java classes whose fields change in place are Dafny classes with the same
fields: `Deck`, `Hand`, `Player`, `Dealer` and `Game`. Their methods keep the
source's loops. Each method is proved equal to a pure function of the old
state:
- `Deck.Shuffle` against `Shuffled`;
- `Player.PlayTurn` against `PlayerTurn`;
- `Dealer.PlayTurn` against `DealerTurn`;
- `Game.PlayRound` against `Round`;
- `Game.PlayGameLoop` against `PlayGame`.

The game's properties are lemmas about those functions. A card is a value (`Card`). As in
the source, its point value is worked out once, from the rank, when the card is made
(`NewCard`).

All turn, bust and settlement decisions use the raw total, in which every Ace
counts 11. The source computes the Ace-adjusted total in `Hand.addCard`, but
every caller discards it. The game's welcome text describes Aces as worth 1 or 11.
The model follows the code, so two Aces dealt to the player are an immediate
loss (`TwoAcesBust`). The Ace adjustment itself is modelled and proved on its
own (`Hand.AdjustForAce`, `AceAdjustedBounds`).

Console input is replaced by already-validated values, one `RoundInput` per
round:
- the bet;
- the sequence of hit/stay decisions;
- the answer to "play another round?";
- the random draws for a reshuffle.

When the decisions run out in the middle of a turn, the Java program would
fail reading the console. The model ends the round as `Aborted` and ends the
game there.

Files: `options.dfy` (Option), `seqs.dfy` (list and multiset facts used to show that dealing only moves cards), `cards.dfy` (Card), `deck.dfy` (Deck),
`hand.dfy` (Hand), `player.dfy` (Player), `dealer.dfy` (Dealer),
`game.dfy` (Game).

## Model

| member | source | states |
|---|---|---|
| Cards.RankValue | src/Card.java:33-61 | "Ace" is worth 11; "10", "Jack", "Queen" and "King" are worth 10; a numeral "2".."9" is worth its digit. Any other string, including a different letter case, is worth 0. Every value lies in 0..11 |
| Cards.NewCard | src/Card.java:21-25 | a new card keeps its suit and rank, and its value is the rank's value, between 0 and 11, whatever the suit |
| Cards.Card.ToString | src/Card.java:96-98 | the text is the rank, then " of ", then the suit |
| Decks.FullDeck | src/Deck.java:27-39 | a fresh deck holds 52 cards |
| Decks.FullDeckAt | src/Deck.java:28-38 | card 13*s + r of a fresh deck has suit s and rank r, with suits outer and ranks inner |
| Decks.FullDeckDistinct | src/Deck.java:28-38 | no two cards of a fresh deck are equal |
| Decks.FullDeckValues | src/Deck.java:28-38 | every card of a fresh deck has a recognised rank, so its value is 2..11 |
| Decks.Swap | src/Deck.java:44-47 | one step of the shuffle exchanges the two positions and leaves every other card in place |
| Decks.SwapPermutes | src/Deck.java:44-47 | exchanging two cards keeps the same multiset of cards |
| Decks.ShuffleFrom | src/Deck.java:45 | the library's swap loop from position i down, the k-th draw choosing the card for position i-1; its length is kept, and `ShuffleFromPermutes` proves it only reorders the cards |
| Decks.ShuffleFromPermutes | src/Deck.java:44-47 | the swap loop keeps the same multiset of cards, whatever the random draws |
| Decks.Shuffled | src/Deck.java:45 | the order one shuffle leaves the cards in for given random draws; the count is kept, and `ShuffledPermutes` proves it is a permutation. `Deck.Shuffle` is proved to produce it |
| Decks.ShuffledPermutes | src/Deck.java:44-47 | a shuffle keeps the count and the multiset of cards |
| Decks.Draw | src/Deck.java:54-61 | one deal: the front card and the rest, or no card from an empty deck. `DrawSplits` proves a card comes exactly when the deck is non-empty and nothing is lost; `Deck.DealCard` is proved to follow it |
| Decks.DrawSplits | src/Deck.java:54-61 | dealing yields a card exactly when the deck is non-empty; the dealt card followed by the rest is the old deck |
| Decks.Deck.constructor | src/Deck.java:19-22 | a new deck holds the 52 cards in their fixed order |
| Decks.Deck.InitializeDeck | src/Deck.java:27-39 | the nested suit/rank loops build exactly the fixed 52-card order |
| Decks.Deck.Shuffle | src/Deck.java:44-47 | the cards end in the order of the swap loop on the given draws, with the same multiset |
| Decks.Deck.DealCard | src/Deck.java:54-61 | on a non-empty deck, returns the old front card, leaves the old tail and lowers the count by one; on an empty deck, returns no card and leaves the deck empty |
| Decks.Deck.RemainingCards | src/Deck.java:68-70 | the result is the number of cards held |
| Hands.TotalAppend | src/Hand.java:78-84 | the raw total of two lists joined is the sum of their raw totals |
| Hands.Total | src/Hand.java:78-84 | the raw total: every card at its stored value, no Ace adjustment. `TotalAppend` proves it adds up over joined lists, `Hand.CalculateTotal` is proved to compute it, and every turn, bust and settlement decision uses it |
| Hands.IsAce | src/Hand.java:57 | a rank is an Ace when it reads "ace" in any letter case, as the case-insensitive comparison does; `AceCount` counts such cards |
| Hands.AceCount | src/Hand.java:55-60 | the number of Aces, matched ignoring case, is at most the number of cards |
| Hands.AceAdjusted | src/Hand.java:62-68 | the demotion loop: while the total is over 21 and an Ace is left, take 10 off. `AceAdjustedBounds` and `AceAdjustedClosedForm` carry its properties; `Hand.AdjustForAce` is proved to compute it |
| Hands.AceAdjustedBounds | src/Hand.java:62-68 | the adjusted total is the raw total less 10 per demoted Ace, with no more demotions than Aces. A raw total of 21 or less is unchanged. A result still over 21 means every Ace was demoted. After any demotion, the result plus 10 exceeds 21 |
| Hands.AceAdjustedClosedForm | src/Hand.java:62-68 | the demotion loop equals a direct count of the demotions needed |
| Hands.CardLines | src/Hand.java:94-100 | one line per card, in order; the first is "Hidden Card" exactly when asked |
| Hands.Hand.constructor | src/Hand.java:15-22 | a new hand is empty and narrates Ace adjustments |
| Hands.Hand.SetPrintAceAdjustmentMessages | src/Hand.java:30-32 | sets the narration flag and leaves the cards alone |
| Hands.Hand.AddCard | src/Hand.java:40-46 | a card is appended after all earlier cards and the Ace-adjusted total is returned; with no card the hand is unchanged and the raw total is returned |
| Hands.Hand.AdjustForAce | src/Hand.java:53-71 | returns the Ace-adjusted total of the cards and changes no card. With narration on, one message is printed per demotion; with it off, none |
| Hands.Hand.CalculateTotal | src/Hand.java:78-84 | the result is the raw total: every card at its stored value, with no Ace adjustment |
| Hands.Hand.Display | src/Hand.java:93-104 | one line per card, the first hidden when asked, then the raw total exactly when asked |
| Hands.Hand.Reset | src/Hand.java:118-120 | the hand becomes empty |
| Players.PlayerTurn | src/Player.java:99-120 | a turn never reads more decisions than were supplied |
| Players.PlayerTurnDrawsFromFront | src/Player.java:103-109 | the hand grows by a prefix of the deck and the deck keeps the rest. Every decision read draws one card, except a final stay or a hit on an empty deck |
| Players.PlayerTurnMovesCards | src/Player.java:100-119 | the turn only moves cards from the deck to the hand; hand followed by deck is unchanged |
| Players.PlayerTurnDrawsBelow21 | src/Player.java:100-109 | every card is drawn while the raw total is below 21 |
| Players.PlayerTurnReadsHits | src/Player.java:101-118 | every decision read is a hit, except a stay that ends the turn |
| Players.PlayerTurnStopsExactly | src/Player.java:100-119 | with a raw total of 21 or more on entry, nothing is read or drawn. The turn ends only on a stay, a hit on an empty deck, a bust (raw total over 21), a raw total of 21 or more, or running out of decisions |
| Players.BetPlaced | src/Player.java:43-52 | a bet above the balance is cut to the whole balance and leaves 0; otherwise the bet is taken as asked. Balance plus bet equals the old balance. With a positive bet and a non-negative balance, both stay non-negative |
| Players.Player.constructor | src/Player.java:22-26 | a new player holds the starting money, a zero bet and an empty narrating hand |
| Players.Player.PlaceBet | src/Player.java:43-52 | the new balance and bet are those of `BetPlaced` |
| Players.Player.AddWinnings | src/Player.java:68-71 | the balance rises by exactly the amount and the bet is unchanged |
| Players.Player.PlayTurn | src/Player.java:99-120 | the hit/stay loop leaves hand, deck, decisions read and end reason exactly as `PlayerTurn` describes |
| Dealers.DealerTurn | src/Dealer.java:36-51 | the dealer's hand only grows and the deck only shrinks |
| Dealers.DealerTurnDraws | src/Dealer.java:38-45 | the dealer takes a prefix of the deck, no more cards than it held, and nothing when the raw total is already 17 or more |
| Dealers.DealerTurnConserves | src/Dealer.java:39-45 | hand followed by deck is unchanged by the turn |
| Dealers.DealerTurnReaches17 | src/Dealer.java:38-43 | at the end the raw total is at least 17 or the deck is empty |
| Dealers.DealerDrawsBelow17 | src/Dealer.java:38-50 | every card is drawn while the raw total is below 17 |
| Dealers.Dealer.constructor | src/Dealer.java:15-18 | a new dealer has an empty hand with Ace narration switched off |
| Dealers.Dealer.RevealHiddenCard | src/Dealer.java:23-26 | every card is shown, none hidden, and the last line is the raw total |
| Dealers.Dealer.PlayTurn | src/Dealer.java:36-55 | the loop leaves hand and deck as `DealerTurn` describes; "Dealer stays" is reported exactly when the final raw total is 17..21 |
| Games.Settle | src/Game.java:127-147 | a dealer total over 21 is a dealer bust whatever the player holds; otherwise the higher raw total wins and equal totals tie. Each case is an if-and-only-if |
| Games.Winnings | src/Game.java:135-146 | what a settled bet pays back: twice the bet on a win, the bet on a tie, nothing on a loss. `SettledNetEffect` proves the net gain or loss against the balance before the bet, and `Game.DetermineWinner` is proved to pay it |
| Games.SettledNetEffect | src/Game.java:127-147 | relative to the balance before the bet, a win gains the bet, a loss loses it and a tie changes nothing |
| Games.InitialDeal | src/Game.java:71-78 | cards 0 and 2 go to the player and cards 1 and 3 to the dealer; the deck keeps the rest, and a short deck deals what it has |
| Games.InitialDealByDraws | src/Game.java:75-78 | the initial deal is four single deals from the front, alternating player and dealer |
| Games.InitialDealConserves | src/Game.java:71-78 | the deal only moves cards from the deck into the two hands |
| Games.BetDealAndPlay | src/Game.java:66-89 | the first part of a round: bet, deal, player's turn. `PlayerPhaseConserves` proves it only moves cards, `RoundDealOrder` fixes the deal order, and `Game.BetDealAndPlayTurn` is proved to follow it |
| Games.Round | src/Game.java:64-117 | one pass of the loop body: an interrupted turn aborts, a raw total over 21 loses at once, otherwise the dealer plays and the bet is settled. Its properties are `RoundMoney`, `RoundDealOrder`, `RoundBustSkipsDealer`, `TwoAcesBust`, `RoundConservesCards` and `RoundReshuffles`; `Game.PlayRound` is proved to follow it |
| Games.DealerAndSettle | src/Game.java:97-116 | the rest of a round the player stood in: the dealer's turn, settlement on raw totals, and a new shuffled deck when the player plays on with under 10 cards. `DealerPhaseConserves` and `RoundReshuffles` carry its properties; `Game.DealerPlaysAndSettle` is proved to follow it |
| Games.RoundMoney | src/Game.java:64-108 | the round's bet is the placed (possibly capped) bet. A win adds it to the balance held before the bet, a tie changes nothing, and a loss, a bust or an interrupted round takes it away |
| Games.RoundDealOrder | src/Game.java:71-78 | with four cards or more, the player's hand starts with deck cards 0 and 2 and the dealer's with 1 and 3 |
| Games.RoundBustSkipsDealer | src/Game.java:91-95 | the round is lost to a bust exactly when the player's raw total exceeds 21. Then the dealer draws nothing, no winnings are paid and the deck is not replaced |
| Games.TwoAcesBust | src/Game.java:75-95 | two Aces dealt to the player (raw 22) lose the round with no hit-or-stay decision read |
| Games.PlayerPhaseConserves | src/Game.java:71-89 | after the deal and the player's turn, the two hands and the deck hold the deck's original cards |
| Games.DealerPhaseConserves | src/Game.java:98-100 | the dealer's turn keeps the cards of both hands and the deck together |
| Games.RoundConservesCards | src/Game.java:63-117 | unless the deck is replaced, a round neither loses nor creates a card |
| Games.RoundReshuffles | src/Game.java:105-116 | after a settled round the player continues from, a deck under 10 cards becomes all 52 cards in shuffled order; otherwise the deck is what the turns left |
| Games.PlayGame | src/Game.java:63-121 | rounds in sequence while the balance is positive, stopping when the player declines or the round is interrupted. `PlayGameKeepsMoney` proves the balance never goes negative with positive bets; `Game.PlayGameLoop` is proved to follow it |
| Games.PlayGameKeepsMoney | src/Game.java:64-68 | with positive bets, a non-negative balance stays non-negative through the whole game |
| Games.Game.constructor | src/Game.java:27-36 | a new game holds the starting money, a zero bet, empty hands and a shuffled 52-card deck; the player's hand narrates Ace adjustments and the dealer's does not (`Valid`) |
| Games.Game.DetermineWinner | src/Game.java:127-147 | the outcome is `Settle` of the two raw totals and the balance rises by that outcome's winnings |
| Games.Game.DealInitialCards | src/Game.java:70-78 | the hands are emptied and the four cards are dealt as `InitialDeal` describes; both hands keep their narration flags (`Valid`) |
| Games.Game.BetDealAndPlayTurn | src/Game.java:66-89 | the bet, deal and player's turn leave balance, bet, hands and deck as the start of `Round` describes; both hands keep their narration flags (`Valid`) |
| Games.Game.DealerPlaysAndSettle | src/Game.java:97-116 | the dealer's turn, settlement and deck replacement leave the state as `DealerAndSettle` describes; the dealer's hand stays silent (`Valid`) |
| Games.Game.ReplaceLowDeck | src/Game.java:110-116 | a deck with fewer than 10 cards is replaced by a new shuffled deck; otherwise it is kept |
| Games.Game.PlayRound | src/Game.java:64-117 | one pass of the loop body leaves the table and the round's end as `Round` describes; both hands keep their narration flags (`Valid`) |
| Games.Game.PlayGameLoop | src/Game.java:63-121 | rounds run while the balance is positive, stopping when input runs out or the player declines; the final table is `PlayGame` of the inputs, and both hands keep their narration flags (`Valid`) |

## Left out

- Console output (the welcome text, draw, bust and shuffle messages) is not modelled. The two messages whose occurrence matters are modelled as values: Ace-adjustment messages are counted by `Hand.AdjustForAce`, and "Dealer stays" is the result of `Dealer.PlayTurn`. Hand display is a `Line` sequence.
- The Scanner loops that re-prompt until the input is valid (`getValidIntegerInput`, `playerWantsToContinue`, `decideHitOrStay`) are not modelled. Their validated results are inputs. The bet is any integer; `PlayGameKeepsMoney` adds the positivity the prompt enforces.
- The random numbers of `Collections.shuffle` are a parameter `rng`. `Shuffled` follows the library's swap loop (from the back, swapping position i-1 with a draw below i). The library itself is not part of this model.
- Running out of input mid-turn would throw in Java. The model stops the round as `Aborted` and ends the game.
- Games.Game.PlayGameLoop: ends when the supplied rounds are used up. In Java the game ends only when the player answers "n" or the money runs out.
- Java `int` overflow of `money` and `currentBet * 2` is not modelled. The model uses unbounded integers.
- `Participant` (a holder of a hand) is folded into `Player` and `Dealer`. `BlackjackGameSimulator` (the entry point) and `scanner.close()` are not part of this model.
- Decks.Deck.DealCard: returns an `Option` rather than a nullable reference. A dealt "no card" reaching `Hand.AddCard` leaves the hand unchanged, as in the source.
