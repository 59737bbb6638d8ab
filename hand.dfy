/**
 * A participant's hand: the cards in draw order, their raw total, the
 * Ace-adjusted total, and the lines shown when the hand is displayed.
 */
module Hands {
  import opened Options
  import opened Cards

  /** Raw total: every card at its face value, each Ace at 11. */
  function Total(cards: seq<Card>): int {
    if cards == [] then 0 else Total(cards[..|cards| - 1]) + cards[|cards| - 1].value
  }

  lemma {:induction false} TotalAppend(a: seq<Card>, b: seq<Card>)
    ensures Total(a + b) == Total(a) + Total(b)
    decreases |b|
  {
    if b == [] {
      assert a + b == a;
    } else {
      var b' := b[..|b| - 1];
      assert (a + b)[..|a + b| - 1] == a + b';
      TotalAppend(a, b');
    }
  }

  /** The rank reads "Ace" ignoring letter case. */
  predicate IsAce(rank: string) {
    |rank| == 3 && rank[0] in "Aa" && rank[1] in "Cc" && rank[2] in "Ee"
  }

  /** Number of cards whose rank is "ace" in any letter case. */
  function AceCount(cards: seq<Card>): (n: nat)
    ensures n <= |cards|
  {
    if cards == [] then 0
    else AceCount(cards[..|cards| - 1]) + (if IsAce(cards[|cards| - 1].rank) then 1 else 0)
  }

  /**
   * The Ace adjustment: while the total is over 21 and an Ace is left to
   * demote, take 10 off and use that Ace up.
   */
  function AceAdjusted(total: int, aces: nat): int
    decreases aces
  {
    if total > 21 && aces > 0 then AceAdjusted(total - 10, aces - 1) else total
  }

  /**
   * The adjustment takes 10 off per Ace demoted, never more than there are
   * Aces, leaves a total of 21 or less alone, stops as soon as the total is
   * 21 or less, and demotes every Ace when the total is still over 21.
   */
  lemma {:induction false} AceAdjustedBounds(total: int, aces: nat)
    ensures var r := AceAdjusted(total, aces);
      && r <= total && (total - r) % 10 == 0 && total - r <= 10 * aces
      && (total <= 21 ==> r == total)
      && (r > 21 ==> total - r == 10 * aces)
      && (r < total ==> r + 10 > 21)
    decreases aces
  {
    if total > 21 && aces > 0 {
      AceAdjustedBounds(total - 10, aces - 1);
    }
  }

  /** How many Aces must go from 11 to 1, computed directly rather than one at a time. */
  function DemotionsNeeded(total: int, aces: nat): nat {
    if total <= 21 then 0
    else if aces < (total - 12) / 10 then aces
    else (total - 12) / 10
  }

  /** The loop's result agrees with the direct count of demotions. */
  lemma {:induction false} AceAdjustedClosedForm(total: int, aces: nat)
    ensures AceAdjusted(total, aces) == total - 10 * DemotionsNeeded(total, aces)
    decreases aces
  {
    if total > 21 && aces > 0 {
      AceAdjustedClosedForm(total - 10, aces - 1);
      assert DemotionsNeeded(total, aces) == DemotionsNeeded(total - 10, aces - 1) + 1;
    }
  }

  /** One line of a displayed hand. */
  datatype Line = HiddenCard | CardLine(text: string) | TotalLine(total: int)

  /** One line per card, the first masked when `hideFirst`. */
  function CardLines(cards: seq<Card>, hideFirst: bool): (lines: seq<Line>)
    ensures |lines| == |cards|
    ensures forall i :: 0 <= i < |cards| ==>
      lines[i] == if i == 0 && hideFirst then HiddenCard else CardLine(cards[i].ToString())
  {
    if cards == [] then []
    else [if hideFirst then HiddenCard else CardLine(cards[0].ToString())] + CardLines(cards[1..], false)
  }

  class Hand {
    var cards: seq<Card>
    var printAceAdjustmentMessages: bool

    constructor ()
      ensures cards == [] && printAceAdjustmentMessages
    {
      cards := [];
      printAceAdjustmentMessages := true;
    }

    method SetPrintAceAdjustmentMessages(enabled: bool)
      modifies this
      ensures cards == old(cards) && printAceAdjustmentMessages == enabled
    {
      printAceAdjustmentMessages := enabled;
    }

    /**
     * Appends a dealt card and returns the Ace-adjusted total; with no card
     * the hand stays as it is and the raw total is returned.
     */
    method AddCard(card: Option<Card>) returns (total: int)
      modifies this
      ensures printAceAdjustmentMessages == old(printAceAdjustmentMessages)
      ensures card.Some? ==> cards == old(cards) + [card.value]
      ensures card.Some? ==> total == AceAdjusted(Total(cards), AceCount(cards))
      ensures card.None? ==> cards == old(cards) && total == Total(cards)
    {
      if card.Some? {
        cards := cards + [card.value];
        var narrated;
        total, narrated := AdjustForAce();
      } else {
        total := CalculateTotal();
      }
    }

    /**
     * The Ace-adjusted total, together with the number of "adjusting Ace"
     * messages printed (none when they are switched off). The cards are not changed.
     */
    method AdjustForAce() returns (total: int, narrated: nat)
      ensures total == AceAdjusted(Total(cards), AceCount(cards))
      ensures printAceAdjustmentMessages ==> Total(cards) - total == 10 * narrated
      ensures !printAceAdjustmentMessages ==> narrated == 0
    {
      total := CalculateTotal();
      var aces := 0;
      for i := 0 to |cards|
        invariant aces == AceCount(cards[..i])
      {
        assert cards[..i + 1][..i] == cards[..i];
        if IsAce(cards[i].rank) {
          aces := aces + 1;
        }
      }
      assert cards[..|cards|] == cards;
      narrated := 0;
      while total > 21 && aces > 0
        invariant AceAdjusted(total, aces) == AceAdjusted(Total(cards), AceCount(cards))
        invariant printAceAdjustmentMessages ==> Total(cards) - total == 10 * narrated
        invariant !printAceAdjustmentMessages ==> narrated == 0
      {
        total := total - 10;
        aces := aces - 1;
        if printAceAdjustmentMessages {
          narrated := narrated + 1;
        }
      }
    }

    /** The raw total of the cards now held. */
    method CalculateTotal() returns (total: int)
      ensures total == Total(cards)
    {
      total := 0;
      for i := 0 to |cards|
        invariant total == Total(cards[..i])
      {
        assert cards[..i + 1][..i] == cards[..i];
        total := total + cards[i].value;
      }
      assert cards[..|cards|] == cards;
    }

    /**
     * The lines shown for the hand: a line per card, the first replaced by
     * "Hidden Card" when `hideFirstCard`, then the raw total when `showTotal`.
     */
    function Display(hideFirstCard: bool, showTotal: bool): (lines: seq<Line>)
      reads this
      ensures |lines| == |cards| + (if showTotal then 1 else 0)
      ensures forall i :: 0 <= i < |cards| ==>
        lines[i] == if i == 0 && hideFirstCard then HiddenCard else CardLine(cards[i].ToString())
      ensures showTotal ==> lines[|cards|] == TotalLine(Total(cards))
    {
      CardLines(cards, hideFirstCard) + (if showTotal then [TotalLine(Total(cards))] else [])
    }

    /** Empties the hand for a new round. */
    method Reset()
      modifies this
      ensures cards == [] && printAceAdjustmentMessages == old(printAceAdjustmentMessages)
    {
      cards := [];
    }
  }
}
