/**
 * The dealer: draws while the raw total of the hand is below 17, and keeps
 * its Ace-adjustment narration switched off.
 */
module Dealers {
  import opened Options
  import opened Cards
  import opened Decks
  import opened Hands

  datatype DealerTurnResult = DealerTurnResult(hand: seq<Card>, deck: seq<Card>)

  /**
   * The dealer's turn: draw the deck's front card while the raw total is
   * below 17, stopping early when the deck is empty or the total goes over 21.
   */
  function DealerTurn(hand: seq<Card>, deck: seq<Card>): (r: DealerTurnResult)
    ensures |hand| <= |r.hand| && |r.deck| <= |deck|
    decreases |deck|
  {
    if Total(hand) >= 17 || deck == [] then DealerTurnResult(hand, deck)
    else
      var drawn := hand + [deck[0]];
      if Total(drawn) > 21 then DealerTurnResult(drawn, deck[1..])
      else DealerTurn(drawn, deck[1..])
  }

  /**
   * The dealer takes a prefix of the deck, no more cards than it held, and
   * nothing when the raw total is already 17 or more.
   */
  lemma {:induction false} DealerTurnDraws(hand: seq<Card>, deck: seq<Card>)
    ensures var r := DealerTurn(hand, deck);
      var k := |r.hand| - |hand|;
      && k <= |deck|
      && r.hand == hand + deck[..k]
      && r.deck == deck[k..]
      && (Total(hand) >= 17 ==> k == 0)
    decreases |deck|
  {
    var r := DealerTurn(hand, deck);
    if Total(hand) >= 17 || deck == [] {
      assert hand + deck[..0] == hand && deck[0..] == deck;
    } else {
      var drawn := hand + [deck[0]];
      assert hand + deck[..1] == drawn;
      if Total(drawn) <= 21 {
        DealerTurnDraws(drawn, deck[1..]);
        var k' := |r.hand| - |drawn|;
        assert drawn + deck[1..][..k'] == hand + deck[..k' + 1];
        assert deck[1..][k'..] == deck[k' + 1..];
      }
    }
  }

  /** The dealer's turn neither loses nor adds a card: hand and deck together are unchanged. */
  lemma DealerTurnConserves(hand: seq<Card>, deck: seq<Card>)
    ensures var r := DealerTurn(hand, deck);
      r.hand + r.deck == hand + deck
  {
    DealerTurnDraws(hand, deck);
    var r := DealerTurn(hand, deck);
    var k := |r.hand| - |hand|;
    assert deck[..k] + deck[k..] == deck;
  }

  /** When the dealer stops, the raw total is at least 17 or the deck is empty. */
  lemma {:induction false} DealerTurnReaches17(hand: seq<Card>, deck: seq<Card>)
    ensures var r := DealerTurn(hand, deck);
      Total(r.hand) >= 17 || r.deck == []
    decreases |deck|
  {
    if Total(hand) < 17 && deck != [] {
      var drawn := hand + [deck[0]];
      if Total(drawn) <= 21 {
        DealerTurnReaches17(drawn, deck[1..]);
      }
    }
  }

  /** Every card the dealer draws is drawn while the raw total is below 17. */
  lemma {:induction false} DealerDrawsBelow17(hand: seq<Card>, deck: seq<Card>, j: nat)
    requires j < |DealerTurn(hand, deck).hand| - |hand|
    ensures j < |deck| && Total(hand + deck[..j]) < 17
    decreases |deck|
  {
    DealerTurnDraws(hand, deck);
    var drawn := hand + [deck[0]];
    if j == 0 {
      assert hand + deck[..0] == hand;
    } else {
      DealerDrawsBelow17(drawn, deck[1..], j - 1);
      assert hand + deck[..j] == drawn + deck[1..][..j - 1];
    }
  }

  class Dealer {
    const hand: Hand

    /** A dealer with an empty hand whose Ace-adjustment messages are off. */
    constructor ()
      ensures fresh(hand) && hand.cards == [] && !hand.printAceAdjustmentMessages
    {
      hand := new Hand();
      new;
      hand.SetPrintAceAdjustmentMessages(false);
    }

    /** The lines shown when the hole card is revealed: every card, then the raw total. */
    function RevealHiddenCard(): (lines: seq<Line>)
      reads hand
      ensures |lines| == |hand.cards| + 1 && HiddenCard !in lines
      ensures lines[..|hand.cards|] == CardLines(hand.cards, false)
      ensures lines[|hand.cards|] == TotalLine(Total(hand.cards))
    {
      hand.Display(false, true)
    }

    /**
     * Draws while the raw total is below 17; `stays` reports the
     * "dealer stays" announcement, made when the final raw total is 17 to 21.
     */
    method PlayTurn(deck: Deck) returns (stays: bool)
      modifies hand, deck
      ensures DealerTurnResult(hand.cards, deck.cards) == DealerTurn(old(hand.cards), old(deck.cards))
      ensures stays <==> 17 <= Total(hand.cards) <= 21
      ensures hand.printAceAdjustmentMessages == old(hand.printAceAdjustmentMessages)
    {
      ghost var spec := DealerTurn(hand.cards, deck.cards);
      var total := hand.CalculateTotal();
      while total < 17
        invariant total == Total(hand.cards)
        invariant hand.printAceAdjustmentMessages == old(hand.printAceAdjustmentMessages)
        invariant spec == DealerTurn(hand.cards, deck.cards)
        decreases |deck.cards|
      {
        var card := deck.DealCard();
        if card.None? {
          break;
        }
        var _ := hand.AddCard(card);
        total := hand.CalculateTotal();
        if total > 21 {
          break;
        }
      }
      stays := 17 <= total <= 21;
    }
  }
}
