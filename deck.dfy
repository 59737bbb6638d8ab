/**
 * The deck: 52 cards built in a fixed order, shuffled in place, and dealt
 * from the front until it runs out.
 */
module Decks {
  import opened Options
  import opened Seqs
  import opened Cards

  const Suits: seq<string> := ["Hearts", "Diamonds", "Clubs", "Spades"]
  const Ranks: seq<string> := ["Ace", "2", "3", "4", "5", "6", "7", "8", "9", "10", "Jack", "Queen", "King"]

  /** Reference order of a fresh deck: card 13 * s + r is rank r of suit s. */
  function FullDeck(): (d: seq<Card>)
    ensures |d| == 52
  {
    seq(52, i requires 0 <= i < 52 => NewCard(Suits[i / 13], Ranks[i % 13]))
  }

  /** Where each (suit, rank) pair sits in a fresh deck. */
  lemma FullDeckAt(s: nat, r: nat)
    requires s < |Suits| && r < |Ranks|
    ensures 13 * s + r < |FullDeck()|
    ensures FullDeck()[13 * s + r] == NewCard(Suits[s], Ranks[r])
  {
    assert (13 * s + r) / 13 == s && (13 * s + r) % 13 == r;
  }

  /** A fresh deck holds no card twice. */
  lemma FullDeckDistinct(i: nat, j: nat)
    requires i < j < |FullDeck()|
    ensures FullDeck()[i] != FullDeck()[j]
  {
    assert i == 13 * (i / 13) + i % 13 && j == 13 * (j / 13) + j % 13;
    assert forall a, b :: 0 <= a < b < |Suits| ==> Suits[a] != Suits[b];
    assert forall a, b :: 0 <= a < b < |Ranks| ==> Ranks[a] != Ranks[b];
  }

  /** Every card of a fresh deck has a recognised rank, so a value of 2 to 11. */
  lemma FullDeckValues(i: nat)
    requires i < |FullDeck()|
    ensures FullDeck()[i].Valued() && 2 <= FullDeck()[i].value <= 11
  {
    var rank := Ranks[i % 13];
    assert rank == "Ace" || rank in TenRanks || IsNumeralRank(rank);
  }

  /** The list with the cards at positions `a` and `b` exchanged. */
  function Swap(s: seq<Card>, a: nat, b: nat): (t: seq<Card>)
    requires a < |s| && b < |s|
    ensures |t| == |s| && t[a] == s[b] && t[b] == s[a]
    ensures forall k :: 0 <= k < |s| && k != a && k != b ==> t[k] == s[k]
  {
    s[a := s[b]][b := s[a]]
  }

  /** Exchanging two cards keeps the same cards. */
  lemma SwapPermutes(s: seq<Card>, a: nat, b: nat)
    requires a < |s| && b < |s|
    ensures multiset(Swap(s, a, b)) == multiset(s)
  {
    var t := s[a := s[b]];
    assert multiset(t) == multiset(s) - multiset{s[a]} + multiset{s[b]};
  }

  /**
   * The swap loop of the library shuffle from position `i` down: the k-th
   * random draw `rng(k)`, reduced below `i`, picks the card that moves to
   * position `i - 1`.
   */
  function ShuffleFrom(s: seq<Card>, i: nat, k: nat, rng: nat -> nat): (t: seq<Card>)
    requires i <= |s|
    ensures |t| == |s|
    decreases i
  {
    if i <= 1 then s
    else ShuffleFrom(Swap(s, i - 1, rng(k) % i), i - 1, k + 1, rng)
  }

  /** The order a shuffle with random draws `rng` leaves the cards in. */
  function Shuffled(s: seq<Card>, rng: nat -> nat): (t: seq<Card>)
    ensures |t| == |s|
  {
    ShuffleFrom(s, |s|, 0, rng)
  }

  /** Every step of the swap loop keeps the same cards, so the whole loop does. */
  lemma {:induction false} ShuffleFromPermutes(s: seq<Card>, i: nat, k: nat, rng: nat -> nat)
    requires i <= |s|
    ensures multiset(ShuffleFrom(s, i, k, rng)) == multiset(s)
    decreases i
  {
    if i > 1 {
      var j := rng(k) % i;
      SwapPermutes(s, i - 1, j);
      ShuffleFromPermutes(Swap(s, i - 1, j), i - 1, k + 1, rng);
    }
  }

  /** Whatever the random draws, a shuffle only reorders the cards. */
  lemma ShuffledPermutes(s: seq<Card>, rng: nat -> nat)
    ensures |Shuffled(s, rng)| == |s|
    ensures multiset(Shuffled(s, rng)) == multiset(s)
  {
    ShuffleFromPermutes(s, |s|, 0, rng);
  }

  /** The outcome of one deal: the card dealt, if any, and what is left. */
  datatype Drawn<T> = Drawn(card: Option<T>, rest: seq<T>)

  /** Dealing from a list of cards: the front card, or no card when it is empty. */
  function Draw<T>(deck: seq<T>): Drawn<T> {
    if deck == [] then Drawn(None, deck) else Drawn(Some(deck[0]), deck[1..])
  }

  /** A deal yields a card exactly when there is one, and the card and the rest make up the old deck. */
  lemma DrawSplits<T>(deck: seq<T>)
    ensures var d := Draw(deck);
      && (d.card.Some? <==> deck != [])
      && (if d.card.Some? then [d.card.value] else []) + d.rest == deck
  {
  }

  class Deck {
    var cards: seq<Card>

    /** A new, unshuffled deck of all 52 cards. */
    constructor ()
      ensures cards == FullDeck()
    {
      var built := InitializeDeck();
      cards := built;
    }

    /** Builds the 52 cards, suits in the outer loop and ranks in the inner one. */
    static method InitializeDeck() returns (built: seq<Card>)
      ensures built == FullDeck()
    {
      built := [];
      for s := 0 to |Suits|
        invariant built == FullDeck()[..13 * s]
      {
        for r := 0 to |Ranks|
          invariant built == FullDeck()[..13 * s + r]
        {
          FullDeckAt(s, r);
          TakeOneMore(FullDeck(), 13 * s + r);
          built := built + [NewCard(Suits[s], Ranks[r])];
        }
      }
    }

    /** Shuffles in place, swapping from the back with the random draws `rng`. */
    method Shuffle(rng: nat -> nat)
      modifies this
      ensures cards == Shuffled(old(cards), rng)
      ensures multiset(cards) == multiset(old(cards))
    {
      var n := |cards|;
      var i := n;
      while i > 1
        invariant 0 <= i <= n == |cards|
        invariant ShuffleFrom(cards, i, n - i, rng) == Shuffled(old(cards), rng)
      {
        cards := Swap(cards, i - 1, rng(n - i) % i);
        i := i - 1;
      }
      ShuffledPermutes(old(cards), rng);
    }

    /** Removes and returns the front card, or returns no card when the deck is empty. */
    method DealCard() returns (card: Option<Card>)
      modifies this
      ensures Drawn(card, cards) == Draw(old(cards))
      ensures card.Some? ==> |cards| == |old(cards)| - 1
      ensures card.None? ==> cards == old(cards) == []
    {
      if cards != [] {
        card := Some(cards[0]);
        cards := cards[1..];
      } else {
        card := None;
      }
    }

    /** The number of cards not yet dealt. */
    method RemainingCards() returns (n: nat)
      ensures n == |cards|
    {
      n := |cards|;
    }
  }
}
