/**
 * Facts about lists and bags of cards that the deck, the turns and the round
 * use to show that dealing only moves cards from one place to another.
 */
module Seqs {
  /** A prefix one longer is the shorter prefix and the next element. */
  lemma TakeOneMore<T>(s: seq<T>, n: nat)
    requires n < |s|
    ensures s[..n + 1] == s[..n] + [s[n]]
  {
  }

  /** Two sequences that join up to `hand + deck`, the first at least as long as `hand`, split `deck` in two. */
  lemma SplitAt<T>(hand: seq<T>, deck: seq<T>, hand': seq<T>, deck': seq<T>)
    requires hand' + deck' == hand + deck && |hand| <= |hand'|
    ensures var k := |hand'| - |hand|;
      && k <= |deck| && hand' == hand + deck[..k] && deck' == deck[k..]
  {
    var k := |hand'| - |hand|;
    assert forall i :: 0 <= i < |hand'| ==> hand'[i] == (hand + deck)[i];
    assert forall i :: 0 <= i < |deck'| ==> deck'[i] == (hand + deck)[|hand'| + i];
  }

  /** Moving a prefix of one list onto the end of another keeps the cards of the two together. */
  lemma MovePrefix<T>(hand: seq<T>, deck: seq<T>, k: nat)
    requires k <= |deck|
    ensures multiset(hand + deck[..k]) + multiset(deck[k..]) == multiset(hand) + multiset(deck)
  {
    assert deck == deck[..k] + deck[k..];
  }

  /** A deck of three is the display of its three cards. */
  lemma FrontThree<T>(deck: seq<T>)
    requires |deck| == 3
    ensures deck == [deck[0], deck[1], deck[2]]
  {
  }

  /** A deck of four or more is its first four cards followed by the rest. */
  lemma FrontFour<T>(deck: seq<T>)
    requires |deck| >= 4
    ensures deck == [deck[0], deck[1], deck[2], deck[3]] + deck[4..]
  {
  }

  /** Three cards, added one at a time. */
  lemma Nested3<T>(a: T, b: T, c: T)
    ensures [a, b, c] == [a] + ([b] + [c])
  {
  }

  /** Four cards in front of a list, added one at a time. */
  lemma Nested<T>(a: T, b: T, c: T, e: T, rest: seq<T>)
    ensures [a, b, c, e] + rest == [a] + ([b] + ([c] + ([e] + rest)))
  {
  }

  /** The cards of a one-card list. */
  lemma Single<T>(x: T)
    ensures multiset([x]) == multiset{x}
  {
  }

  /** The cards of a two-card list, one by one. */
  lemma Pair<T>(x: T, y: T)
    ensures multiset([x, y]) == multiset{x} + multiset{y}
  {
    assert [x, y] == [x] + [y];
  }

  /** The cards of a list with one card in front. */
  lemma Cons<T>(x: T, s: seq<T>)
    ensures multiset([x] + s) == multiset{x} + multiset(s)
  {
  }

  /** Reordering a sum of three bags of cards. */
  lemma Regroup3<T>(a: multiset<T>, b: multiset<T>, c: multiset<T>)
    ensures (a + c) + b == a + (b + c)
  {
  }

  /** Reordering a sum of five bags of cards. */
  lemma Regroup<T>(a: multiset<T>, b: multiset<T>, c: multiset<T>, e: multiset<T>, r: multiset<T>)
    ensures (a + c) + (b + e) + r == a + (b + (c + (e + r)))
  {
  }

  /** Dealing three cards alternately to two hands keeps all three. */
  lemma Interleaved3<T>(a: T, b: T, c: T)
    ensures multiset([a, c]) + multiset([b]) == multiset([a, b, c])
  {
    Pair(a, c);
    Single(b);
    Single(c);
    Nested3(a, b, c);
    Cons(a, [b] + [c]);
    Cons(b, [c]);
    Regroup3(multiset{a}, multiset{b}, multiset{c});
  }

  /** Dealing four cards alternately to two hands keeps all four and the rest of the deck. */
  lemma Interleaved<T>(a: T, b: T, c: T, e: T, rest: seq<T>)
    ensures multiset([a, c]) + multiset([b, e]) + multiset(rest) == multiset([a, b, c, e] + rest)
  {
    Pair(a, c);
    Pair(b, e);
    Nested(a, b, c, e, rest);
    Cons(e, rest);
    Cons(c, [e] + rest);
    Cons(b, [c] + ([e] + rest));
    Cons(a, [b] + ([c] + ([e] + rest)));
    Regroup(multiset{a}, multiset{b}, multiset{c}, multiset{e}, multiset(rest));
  }

  /** Bookkeeping for the two turns: the player's moves cards from the deck, then the dealer's. */
  lemma Regrouped<T>(player: multiset<T>, dealer: multiset<T>, deck: multiset<T>,
                     player': multiset<T>, deck': multiset<T>, dealer'': multiset<T>, deck'': multiset<T>,
                     all: multiset<T>)
    requires player + dealer + deck == all
    requires player' + deck' == player + deck
    requires dealer'' + deck'' == dealer + deck'
    ensures player' + dealer'' + deck'' == all
  {
    forall x
      ensures (player' + dealer'' + deck'')[x] == all[x]
    {
      assert (player + dealer + deck)[x] == all[x];
      assert (player' + deck')[x] == (player + deck)[x];
      assert (dealer'' + deck'')[x] == (dealer + deck')[x];
    }
  }
}
