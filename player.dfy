/**
 * The player: a balance, the current bet, and a hit-or-stay turn driven by
 * decisions read from the user (here supplied as a sequence).
 */
module Players {
  import opened Options
  import opened Seqs
  import opened Cards
  import opened Decks
  import opened Hands

  /** An already-validated answer to "hit or stay?". */
  datatype Decision = Hit | Stay

  /** Why a player's turn ended. */
  datatype TurnEnd =
    | Stood        // the player chose to stay
    | DeckRanOut   // the player hit but the deck had no card left
    | Busted       // a hit took the raw total over 21
    | ReachedLimit // the raw total was 21 or more when a decision was due
    | InputEnded   // no decision was left to read (the console read fails)

  datatype PlayerTurnResult = PlayerTurnResult(hand: seq<Card>, deck: seq<Card>, used: nat, end: TurnEnd)

  /**
   * The player's turn from hand `hand` and deck `deck`, reading answers from
   * `decisions`; `used` counts the answers read. Every test is on the raw total.
   */
  function PlayerTurn(hand: seq<Card>, deck: seq<Card>, decisions: seq<Decision>): (r: PlayerTurnResult)
    ensures r.used <= |decisions|
    decreases |decisions|
  {
    if Total(hand) >= 21 then PlayerTurnResult(hand, deck, 0, ReachedLimit)
    else if decisions == [] then PlayerTurnResult(hand, deck, 0, InputEnded)
    else if decisions[0] == Stay then PlayerTurnResult(hand, deck, 1, Stood)
    else if deck == [] then PlayerTurnResult(hand, deck, 1, DeckRanOut)
    else
      var drawn := hand + [deck[0]];
      if Total(drawn) > 21 then PlayerTurnResult(drawn, deck[1..], 1, Busted)
      else
        var r := PlayerTurn(drawn, deck[1..], decisions[1..]);
        r.(used := r.used + 1)
  }

  /**
   * Each hit moves the deck's front card to the end of the hand: the hand
   * grows by a prefix of the deck and the deck keeps the rest. A card is
   * drawn for every answer read except a final stay or a hit on an empty deck.
   */
  lemma PlayerTurnDrawsFromFront(hand: seq<Card>, deck: seq<Card>, decisions: seq<Decision>)
    ensures var r := PlayerTurn(hand, deck, decisions);
      var k := |r.hand| - |hand|;
      && 0 <= k <= |deck|
      && r.hand == hand + deck[..k]
      && r.deck == deck[k..]
      && k == r.used - (if r.end == Stood || r.end == DeckRanOut then 1 else 0)
  {
    PlayerTurnMovesCards(hand, deck, decisions);
    var r := PlayerTurn(hand, deck, decisions);
    SplitAt(hand, deck, r.hand, r.deck);
  }

  /** The turn only moves cards from the deck to the hand, one per answer read except a final stay or a hit on an empty deck. */
  lemma {:induction false} PlayerTurnMovesCards(hand: seq<Card>, deck: seq<Card>, decisions: seq<Decision>)
    ensures var r := PlayerTurn(hand, deck, decisions);
      && r.hand + r.deck == hand + deck
      && |hand| <= |r.hand|
      && |r.hand| - |hand| == r.used - (if r.end == Stood || r.end == DeckRanOut then 1 else 0)
    decreases |decisions|
  {
    var r := PlayerTurn(hand, deck, decisions);
    if Total(hand) >= 21 {
      assert r == PlayerTurnResult(hand, deck, 0, ReachedLimit);
    } else if decisions == [] {
      assert r == PlayerTurnResult(hand, deck, 0, InputEnded);
    } else if decisions[0] == Stay {
      assert r == PlayerTurnResult(hand, deck, 1, Stood);
    } else if deck == [] {
      assert r == PlayerTurnResult(hand, deck, 1, DeckRanOut);
    } else {
      var drawn := hand + [deck[0]];
      assert drawn + deck[1..] == hand + deck;
      if Total(drawn) > 21 {
        assert r == PlayerTurnResult(drawn, deck[1..], 1, Busted);
      } else {
        PlayerTurnMovesCards(drawn, deck[1..], decisions[1..]);
        assert r == Consumed(PlayerTurn(drawn, deck[1..], decisions[1..]), 1);
      }
    }
  }

  /** A card is drawn only while the raw total is below 21. */
  lemma {:induction false} PlayerTurnDrawsBelow21(hand: seq<Card>, deck: seq<Card>, decisions: seq<Decision>, j: nat)
    requires j < |PlayerTurn(hand, deck, decisions).hand| - |hand|
    ensures j < |deck| && Total(hand + deck[..j]) < 21
    decreases |decisions|
  {
    var r := PlayerTurn(hand, deck, decisions);
    if Total(hand) < 21 && decisions != [] && decisions[0] == Hit && deck != [] {
      var drawn := hand + [deck[0]];
      if Total(drawn) > 21 {
        assert r == PlayerTurnResult(drawn, deck[1..], 1, Busted);
        assert hand + deck[..0] == hand;
      } else {
        var r' := PlayerTurn(drawn, deck[1..], decisions[1..]);
        assert r == Consumed(r', 1);
        if j == 0 {
          assert hand + deck[..0] == hand;
        } else {
          PlayerTurnDrawsBelow21(drawn, deck[1..], decisions[1..], j - 1);
          assert hand + deck[..j] == drawn + deck[1..][..j - 1];
        }
      }
    }
  }

  /** Every answer read is a hit, except that a turn ended by staying reads a stay last. */
  lemma {:induction false} PlayerTurnReadsHits(hand: seq<Card>, deck: seq<Card>, decisions: seq<Decision>, j: nat)
    requires j < PlayerTurn(hand, deck, decisions).used
    ensures var r := PlayerTurn(hand, deck, decisions);
      decisions[j] == Hit || (r.end == Stood && j == r.used - 1)
    decreases |decisions|
  {
    var r := PlayerTurn(hand, deck, decisions);
    if Total(hand) < 21 && decisions != [] && decisions[0] == Stay {
      assert r == PlayerTurnResult(hand, deck, 1, Stood);
    } else if Total(hand) < 21 && decisions != [] && deck != [] && Total(hand + [deck[0]]) <= 21 {
      var drawn := hand + [deck[0]];
      var r' := PlayerTurn(drawn, deck[1..], decisions[1..]);
      assert r == Consumed(r', 1);
      if j > 0 {
        PlayerTurnReadsHits(drawn, deck[1..], decisions[1..], j - 1);
        assert decisions[j] == decisions[1..][j - 1];
      }
    }
  }

  /** The turn ends exactly on a stay, an empty deck, a bust, a raw total of 21 or more, or the end of input. */
  lemma {:induction false} PlayerTurnStopsExactly(hand: seq<Card>, deck: seq<Card>, decisions: seq<Decision>)
    ensures var r := PlayerTurn(hand, deck, decisions);
      && (Total(hand) >= 21 ==> r.used == 0 && r.hand == hand && r.deck == deck)
      && (r.end == Stood ==> r.used >= 1 && decisions[r.used - 1] == Stay && Total(r.hand) < 21)
      && (r.end == DeckRanOut ==> r.used >= 1 && decisions[r.used - 1] == Hit && r.deck == [] && Total(r.hand) < 21)
      && (r.end == Busted ==> r.used >= 1 && Total(r.hand) > 21)
      && (r.end == ReachedLimit ==> Total(r.hand) >= 21)
      && (r.end == InputEnded ==> r.used == |decisions| && Total(r.hand) < 21)
    decreases |decisions|
  {
    var r := PlayerTurn(hand, deck, decisions);
    if Total(hand) >= 21 {
      assert r == PlayerTurnResult(hand, deck, 0, ReachedLimit);
    } else if decisions == [] {
      assert r == PlayerTurnResult(hand, deck, 0, InputEnded);
    } else if decisions[0] == Stay {
      assert r == PlayerTurnResult(hand, deck, 1, Stood);
    } else if deck == [] {
      assert r == PlayerTurnResult(hand, deck, 1, DeckRanOut);
    } else {
      var drawn := hand + [deck[0]];
      if Total(drawn) > 21 {
        assert r == PlayerTurnResult(drawn, deck[1..], 1, Busted);
      } else {
        PlayerTurnStopsExactly(drawn, deck[1..], decisions[1..]);
        var r' := PlayerTurn(drawn, deck[1..], decisions[1..]);
        assert r == Consumed(r', 1);
        if r'.used >= 1 {
          assert decisions[r'.used] == decisions[1..][r'.used - 1];
        }
      }
    }
  }

  /** Balance and bet after a bet is placed. */
  datatype Stakes = Stakes(money: int, bet: int)

  /**
   * Placing a bet of `amount` with `money` in hand: a bet above the balance
   * is cut down to the whole balance; the bet then leaves the balance.
   */
  function BetPlaced(money: int, amount: int): (s: Stakes)
    ensures s.money + s.bet == money
    ensures s.bet <= money && s.bet <= amount && (s.bet == money || s.bet == amount)
    ensures amount > money ==> s == Stakes(0, money)
    ensures money >= 0 && amount > 0 ==> s.money >= 0 && s.bet >= 0
  {
    if amount > money then Stakes(0, money) else Stakes(money - amount, amount)
  }

  class Player {
    const hand: Hand
    var money: int
    var currentBet: int

    constructor (startingMoney: int)
      ensures money == startingMoney && currentBet == 0
      ensures fresh(hand) && hand.cards == [] && hand.printAceAdjustmentMessages
    {
      hand := new Hand();
      money := startingMoney;
      currentBet := 0;
    }

    method PlaceBet(amount: int)
      modifies this
      ensures Stakes(money, currentBet) == BetPlaced(old(money), amount)
    {
      if amount > money {
        currentBet := money;
      } else {
        currentBet := amount;
      }
      money := money - currentBet;
    }

    method AddWinnings(amount: int)
      modifies this
      ensures money == old(money) + amount && currentBet == old(currentBet)
    {
      money := money + amount;
    }

    /**
     * Asks for hit or stay while the raw total is below 21: a hit deals the
     * deck's front card into the hand, and stops the turn when the deck is
     * empty or the raw total goes over 21; a stay stops it.
     */
    method PlayTurn(deck: Deck, decisions: seq<Decision>) returns (used: nat, end: TurnEnd)
      modifies hand, deck
      ensures PlayerTurnResult(hand.cards, deck.cards, used, end)
           == PlayerTurn(old(hand.cards), old(deck.cards), decisions)
      ensures hand.printAceAdjustmentMessages == old(hand.printAceAdjustmentMessages)
    {
      ghost var spec := PlayerTurn(hand.cards, deck.cards, decisions);
      used := 0;
      end := ReachedLimit;
      var total := hand.CalculateTotal();
      while total < 21
        invariant used <= |decisions|
        invariant total == Total(hand.cards)
        invariant hand.printAceAdjustmentMessages == old(hand.printAceAdjustmentMessages)
        invariant spec == Consumed(PlayerTurn(hand.cards, deck.cards, decisions[used..]), used)
        decreases |decisions| - used
      {
        if used == |decisions| {
          end := InputEnded;
          return;
        }
        ghost var rest := decisions[used..];
        var decision := decisions[used];
        used := used + 1;
        if decision == Stay {
          end := Stood;
          return;
        }
        var card := deck.DealCard();
        if card.None? {
          end := DeckRanOut;
          return;
        }
        var _ := hand.AddCard(card);
        total := hand.CalculateTotal();
        if total > 21 {
          end := Busted;
          return;
        }
        assert rest[1..] == decisions[used..];
      }
    }
  }

  /** A turn result with `n` earlier answers added to its count. */
  function Consumed(r: PlayerTurnResult, n: nat): PlayerTurnResult {
    r.(used := r.used + n)
  }
}
