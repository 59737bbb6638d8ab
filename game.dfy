/**
 * The round engine: placing the bet, the initial deal, the two turns,
 * settlement, and replacing a low deck, repeated while the player has money.
 */
module Games {
  import opened Options
  import opened Seqs
  import opened Cards
  import opened Decks
  import opened Hands
  import opened Players
  import opened Dealers

  /** How a round that reached the dealer came out, tested in this order. */
  datatype Outcome = DealerBust | PlayerHigher | DealerHigher | Tie

  /** Settlement on the two raw totals: a dealer bust wins for the player whatever the player holds. */
  function Settle(playerTotal: int, dealerTotal: int): (o: Outcome)
    ensures o == DealerBust <==> dealerTotal > 21
    ensures o == PlayerHigher <==> dealerTotal <= 21 && playerTotal > dealerTotal
    ensures o == DealerHigher <==> dealerTotal <= 21 && playerTotal < dealerTotal
    ensures o == Tie <==> dealerTotal <= 21 && playerTotal == dealerTotal
  {
    if dealerTotal > 21 then DealerBust
    else if playerTotal > dealerTotal then PlayerHigher
    else if playerTotal < dealerTotal then DealerHigher
    else Tie
  }

  predicate PlayerWins(o: Outcome) {
    o == DealerBust || o == PlayerHigher
  }

  /** What settlement pays back: twice the bet on a win, the bet itself on a tie, nothing on a loss. */
  function Winnings(o: Outcome, bet: int): int {
    match o
    case DealerBust => bet * 2
    case PlayerHigher => bet * 2
    case DealerHigher => 0
    case Tie => bet
  }

  /**
   * Net effect of a settled round on the balance held before the bet: a win
   * gains the (possibly capped) bet, a loss loses it, a tie changes nothing.
   */
  lemma SettledNetEffect(money: int, amount: int, playerTotal: int, dealerTotal: int)
    ensures var s := BetPlaced(money, amount);
      var o := Settle(playerTotal, dealerTotal);
      var final := s.money + Winnings(o, s.bet);
      && (PlayerWins(o) ==> final == money + s.bet)
      && (o == DealerHigher ==> final == money - s.bet)
      && (o == Tie ==> final == money)
  {
  }

  /** The state a round works on: balance, bet, both hands and the deck. */
  datatype Table = Table(money: int, bet: int, player: seq<Card>, dealer: seq<Card>, deck: seq<Card>)

  /**
   * The answers one round reads: the bet, the hit-or-stay decisions, the
   * answer to "play another round?", and the random draws of a reshuffle.
   */
  datatype RoundInput = RoundInput(bet: int, decisions: seq<Decision>, again: bool, reshuffle: nat -> nat)

  /** How a round ended. */
  datatype RoundEnd =
    | Aborted                                 // input ran out during the player's turn
    | PlayerBusted                            // the player's raw total went over 21; the dealer did not play
    | Settled(outcome: Outcome, again: bool)  // the round was settled; `again` is the answer to "play another round?"

  datatype RoundResult = RoundResult(table: Table, end: RoundEnd)

  datatype Deal<T> = Deal(player: seq<T>, dealer: seq<T>, deck: seq<T>)

  /** A hand after a dealt card, or unchanged when no card was dealt. */
  function AddDealt<T>(hand: seq<T>, card: Option<T>): seq<T> {
    if card.Some? then hand + [card.value] else hand
  }

  /**
   * The hands and deck after four deals into empty hands in the order
   * player, dealer, player, dealer; a deck with fewer than four cards deals
   * what it has.
   */
  function InitialDeal<T>(deck: seq<T>): (d: Deal<T>)
    ensures |d.player| == (if |deck| < 4 then (|deck| + 1) / 2 else 2)
    ensures |d.dealer| == (if |deck| < 4 then |deck| / 2 else 2)
    ensures forall i :: 0 <= i < |deck| && i < 4 ==>
      deck[i] == if i % 2 == 0 then d.player[i / 2] else d.dealer[i / 2]
    ensures d.deck == if |deck| < 4 then [] else deck[4..]
  {
    if |deck| >= 4 then Deal([deck[0], deck[2]], [deck[1], deck[3]], deck[4..])
    else if |deck| == 3 then Deal([deck[0], deck[2]], [deck[1]], [])
    else if |deck| == 2 then Deal([deck[0]], [deck[1]], [])
    else if |deck| == 1 then Deal([deck[0]], [], [])
    else Deal([], [], [])
  }

  /** The initial deal is four single deals, each from the front of what the last one left. */
  lemma InitialDealByDraws<T>(deck: seq<T>)
    ensures var first := Draw(deck);
      var second := Draw(first.rest);
      var third := Draw(second.rest);
      var fourth := Draw(third.rest);
      InitialDeal(deck) == Deal(AddDealt(AddDealt([], first.card), third.card),
                                AddDealt(AddDealt([], second.card), fourth.card),
                                fourth.rest)
  {
    if |deck| >= 4 {
      assert deck[1..][1..][1..][1..] == deck[4..];
    }
  }

  /** The initial deal only moves cards from the deck into the hands. */
  lemma InitialDealConserves<T>(deck: seq<T>)
    ensures var d := InitialDeal(deck);
      multiset(d.player) + multiset(d.dealer) + multiset(d.deck) == multiset(deck)
  {
    if |deck| >= 4 {
      FullDealConserves(deck);
    } else {
      ShortDealConserves(deck);
    }
  }

  /** Conservation for a deck that has the four cards the deal asks for. */
  lemma FullDealConserves<T>(deck: seq<T>)
    requires |deck| >= 4
    ensures var d := InitialDeal(deck);
      multiset(d.player) + multiset(d.dealer) + multiset(d.deck) == multiset(deck)
  {
    FrontFour(deck);
    Interleaved(deck[0], deck[1], deck[2], deck[3], deck[4..]);
  }

  /** Conservation for a deck with fewer than four cards: it is dealt out completely. */
  lemma ShortDealConserves<T>(deck: seq<T>)
    requires |deck| < 4
    ensures var d := InitialDeal(deck);
      multiset(d.player) + multiset(d.dealer) + multiset(d.deck) == multiset(deck)
  {
    if |deck| == 3 {
      FrontThree(deck);
      Interleaved3(deck[0], deck[1], deck[2]);
    } else if |deck| == 2 {
      assert deck == [deck[0]] + [deck[1]];
    } else if |deck| == 1 {
      assert deck == [deck[0]];
    } else {
      assert deck == [];
    }
  }

  /** Where a round stands once the player's turn is over. */
  datatype AfterPlayer = AfterPlayer(stakes: Stakes, dealer: seq<Card>, turn: PlayerTurnResult)

  /** The first part of a round: place the bet, deal, play the player's turn. */
  function BetDealAndPlay(t: Table, input: RoundInput): AfterPlayer {
    var deal := InitialDeal(t.deck);
    AfterPlayer(BetPlaced(t.money, input.bet), deal.dealer, PlayerTurn(deal.player, deal.deck, input.decisions))
  }

  /**
   * One round: place the bet, deal, play the player's turn; a player whose
   * raw total is over 21 loses at once. Otherwise the dealer plays, the round
   * is settled on the raw totals and, if the player plays on, a deck with
   * fewer than 10 cards is replaced by a new shuffled one.
   */
  function Round(t: Table, input: RoundInput): RoundResult {
    var a := BetDealAndPlay(t, input);
    var pt := a.turn;
    if pt.end == InputEnded then
      RoundResult(Table(a.stakes.money, a.stakes.bet, pt.hand, a.dealer, pt.deck), Aborted)
    else if Total(pt.hand) > 21 then
      RoundResult(Table(a.stakes.money, a.stakes.bet, pt.hand, a.dealer, pt.deck), PlayerBusted)
    else
      DealerAndSettle(a.stakes, pt.hand, a.dealer, pt.deck, input)
  }

  /**
   * The rest of a round the player stood in: the dealer plays, the round is
   * settled on the raw totals and, if the player plays on, a deck with fewer
   * than 10 cards is replaced by a new shuffled one.
   */
  function DealerAndSettle(stakes: Stakes, player: seq<Card>, dealer: seq<Card>, deck: seq<Card>,
                           input: RoundInput): RoundResult
  {
    var dt := DealerTurn(dealer, deck);
    var outcome := Settle(Total(player), Total(dt.hand));
    var next := if input.again && |dt.deck| < 10 then Shuffled(FullDeck(), input.reshuffle) else dt.deck;
    RoundResult(Table(stakes.money + Winnings(outcome, stakes.bet), stakes.bet, player, dt.hand, next),
                Settled(outcome, input.again))
  }

  /** The round is settled, the player plays on, and the dealer left fewer than 10 cards. */
  predicate ReplacesDeck(t: Table, input: RoundInput) {
    var a := BetDealAndPlay(t, input);
    && a.turn.end != InputEnded
    && Total(a.turn.hand) <= 21
    && input.again
    && |DealerTurn(a.dealer, a.turn.deck).deck| < 10
  }

  /** Whether a round with this result ends the game (input ran out, or the player declined to go on). */
  predicate EndsGame(e: RoundEnd) {
    e.Aborted? || (e.Settled? && !e.again)
  }

  /** Rounds are played, one input each, while the balance is positive and the game has not ended. */
  function PlayGame(t: Table, rounds: seq<RoundInput>): Table
    decreases |rounds|
  {
    if t.money <= 0 || rounds == [] then t
    else
      var next := Round(t, rounds[0]);
      if EndsGame(next.end) then next.table else PlayGame(next.table, rounds[1..])
  }

  /**
   * A round's effect on the balance, relative to before the bet: a win adds
   * the bet, a tie nothing, and a loss, a bust or an interrupted round
   * takes the bet away.
   */
  lemma RoundMoney(t: Table, input: RoundInput)
    ensures var b := BetPlaced(t.money, input.bet).bet;
      var r := Round(t, input);
      && r.table.bet == b
      && (r.end.Settled? && PlayerWins(r.end.outcome) ==> r.table.money == t.money + b)
      && (r.end.Settled? && r.end.outcome == Tie ==> r.table.money == t.money)
      && (r.end.Settled? && r.end.outcome == DealerHigher ==> r.table.money == t.money - b)
      && (!r.end.Settled? ==> r.table.money == t.money - b)
  {
  }

  /** With at least four cards, the player starts with cards 0 and 2 and the dealer with cards 1 and 3. */
  lemma RoundDealOrder(t: Table, input: RoundInput)
    requires |t.deck| >= 4
    ensures var r := Round(t, input);
      && |r.table.player| >= 2 && r.table.player[..2] == [t.deck[0], t.deck[2]]
      && |r.table.dealer| >= 2 && r.table.dealer[..2] == [t.deck[1], t.deck[3]]
  {
    var deal := InitialDeal(t.deck);
    PlayerTurnDrawsFromFront(deal.player, deal.deck, input.decisions);
    var pt := PlayerTurn(deal.player, deal.deck, input.decisions);
    DealerTurnDraws(deal.dealer, pt.deck);
  }

  /**
   * The player is out exactly when the raw total after the turn exceeds 21;
   * then the dealer draws nothing, no winnings are paid and the deck is not replaced.
   */
  lemma RoundBustSkipsDealer(t: Table, input: RoundInput)
    ensures var a := BetDealAndPlay(t, input);
      var r := Round(t, input);
      && (r.end == PlayerBusted <==> a.turn.end != InputEnded && Total(a.turn.hand) > 21)
      && (r.end == PlayerBusted ==>
            && r.table.dealer == a.dealer == InitialDeal(t.deck).dealer
            && r.table.deck == a.turn.deck
            && r.table.money == BetPlaced(t.money, input.bet).money)
  {
  }

  /** An Ace and an Ace as the player's first two cards (raw 22) lose the round before any decision. */
  lemma TwoAcesBust(t: Table, input: RoundInput)
    requires |t.deck| >= 4 && t.deck[0].Valued() && t.deck[2].Valued()
    requires t.deck[0].rank == "Ace" && t.deck[2].rank == "Ace"
    ensures BetDealAndPlay(t, input).turn.used == 0
    ensures Round(t, input).end == PlayerBusted
  {
    var hand := InitialDeal(t.deck).player;
    assert hand == [t.deck[0], t.deck[2]];
    assert hand[..1] == [t.deck[0]] && hand[..1][..0] == [];
    assert Total(hand[..1]) == 11;
    assert Total(hand) == 22;
  }

  /**
   * Unless the deck is replaced, a round only moves cards: the two hands and
   * the deck afterwards hold exactly the cards the deck held before.
   */
  lemma RoundConservesCards(t: Table, input: RoundInput)
    requires !ReplacesDeck(t, input)
    ensures var r := Round(t, input);
      multiset(r.table.player) + multiset(r.table.dealer) + multiset(r.table.deck) == multiset(t.deck)
  {
    var a := BetDealAndPlay(t, input);
    var r := Round(t, input);
    PlayerPhaseConserves(t, input);
    if a.turn.end == InputEnded || Total(a.turn.hand) > 21 {
      assert r.table.player == a.turn.hand && r.table.dealer == a.dealer && r.table.deck == a.turn.deck;
    } else {
      var dt := DealerTurn(a.dealer, a.turn.deck);
      assert r.table.player == a.turn.hand && r.table.dealer == dt.hand && r.table.deck == dt.deck;
      DealerPhaseConserves(a.turn.hand, a.dealer, a.turn.deck, t.deck);
    }
  }

  /** The dealer's turn keeps the cards of the two hands and the deck together. */
  lemma DealerPhaseConserves(player: seq<Card>, dealer: seq<Card>, deck: seq<Card>, all: seq<Card>)
    requires multiset(player) + multiset(dealer) + multiset(deck) == multiset(all)
    ensures var dt := DealerTurn(dealer, deck);
      multiset(player) + multiset(dt.hand) + multiset(dt.deck) == multiset(all)
  {
    DealerTurnDraws(dealer, deck);
    var dt := DealerTurn(dealer, deck);
    MovePrefix(dealer, deck, |dt.hand| - |dealer|);
    Regrouped(multiset(player), multiset(dealer), multiset(deck), multiset(player),
              multiset(deck), multiset(dt.hand), multiset(dt.deck), multiset(all));
  }

  /** After the deal and the player's turn, the hands and the deck hold the cards the deck held. */
  lemma PlayerPhaseConserves(t: Table, input: RoundInput)
    ensures var a := BetDealAndPlay(t, input);
      multiset(a.turn.hand) + multiset(a.dealer) + multiset(a.turn.deck) == multiset(t.deck)
  {
    var deal := InitialDeal(t.deck);
    InitialDealConserves(t.deck);
    PlayerTurnDrawsFromFront(deal.player, deal.deck, input.decisions);
    var pt := PlayerTurn(deal.player, deal.deck, input.decisions);
    MovePrefix(deal.player, deal.deck, |pt.hand| - |deal.player|);
    Regrouped(multiset(deal.player), multiset(deal.dealer), multiset(deal.deck), multiset(pt.hand),
              multiset(pt.deck), multiset(deal.dealer), multiset(pt.deck), multiset(t.deck));
  }

  /**
   * After a settled round the player continues from, a deck left with fewer
   * than 10 cards is replaced by all 52 cards in some shuffled order; any
   * other round leaves the deck as the turns left it.
   */
  lemma RoundReshuffles(t: Table, input: RoundInput)
    ensures var a := BetDealAndPlay(t, input);
      var r := Round(t, input);
      && (ReplacesDeck(t, input) ==> |r.table.deck| == 52 && multiset(r.table.deck) == multiset(FullDeck()))
      && (!ReplacesDeck(t, input) && r.end.Settled? ==> r.table.deck == DealerTurn(a.dealer, a.turn.deck).deck)
      && (!r.end.Settled? ==> r.table.deck == a.turn.deck)
  {
    var a := BetDealAndPlay(t, input);
    var r := Round(t, input);
    if a.turn.end == InputEnded || Total(a.turn.hand) > 21 {
      assert !r.end.Settled? && r.table.deck == a.turn.deck;
    } else if ReplacesDeck(t, input) {
      ShuffledPermutes(FullDeck(), input.reshuffle);
      assert r.table.deck == Shuffled(FullDeck(), input.reshuffle);
    } else {
      assert r.end.Settled? && r.table.deck == DealerTurn(a.dealer, a.turn.deck).deck;
    }
  }

  /** With positive bets, a balance that starts at zero or more never goes below zero. */
  lemma {:induction false} PlayGameKeepsMoney(t: Table, rounds: seq<RoundInput>)
    requires t.money >= 0
    requires forall i :: 0 <= i < |rounds| ==> rounds[i].bet > 0
    ensures PlayGame(t, rounds).money >= 0
    decreases |rounds|
  {
    if t.money > 0 && rounds != [] {
      var next := Round(t, rounds[0]);
      RoundMoney(t, rounds[0]);
      if !EndsGame(next.end) {
        PlayGameKeepsMoney(next.table, rounds[1..]);
      }
    }
  }

  class Game {
    const player: Player
    const dealer: Dealer
    var deck: Deck

    /**
     * The two hands are distinct objects; the player's narrates Ace
     * adjustments and the dealer's, switched off when the dealer is made,
     * stays silent.
     */
    ghost predicate Valid()
      reads player.hand, dealer.hand
    {
      && player.hand != dealer.hand
      && player.hand.printAceAdjustmentMessages
      && !dealer.hand.printAceAdjustmentMessages
    }

    /** The game's state as a table. */
    function Snapshot(): Table
      reads this, player, player.hand, dealer.hand, deck
    {
      Table(player.money, player.currentBet, player.hand.cards, dealer.hand.cards, deck.cards)
    }

    /** Sets up a game: the player with the starting money, the dealer, and a new deck shuffled once. */
    constructor (startingMoney: int, rng: nat -> nat)
      ensures Valid()
      ensures Snapshot() == Table(startingMoney, 0, [], [], Shuffled(FullDeck(), rng))
    {
      player := new Player(startingMoney);
      dealer := new Dealer();
      deck := new Deck();
      new;
      deck.Shuffle(rng);
    }

    /** Pays out on the raw totals of the two hands. */
    method DetermineWinner() returns (outcome: Outcome)
      requires Valid()
      modifies player
      ensures outcome == Settle(Total(player.hand.cards), Total(dealer.hand.cards))
      ensures player.money == old(player.money) + Winnings(outcome, player.currentBet)
      ensures player.currentBet == old(player.currentBet)
    {
      var playerTotal := player.hand.CalculateTotal();
      var dealerTotal := dealer.hand.CalculateTotal();
      if dealerTotal > 21 {
        outcome := DealerBust;
        player.AddWinnings(player.currentBet * 2);
      } else if playerTotal > dealerTotal {
        outcome := PlayerHigher;
        player.AddWinnings(player.currentBet * 2);
      } else if playerTotal < dealerTotal {
        outcome := DealerHigher;
      } else {
        outcome := Tie;
        player.AddWinnings(player.currentBet);
      }
    }

    /** Empties both hands and deals player, dealer, player, dealer from the front of the deck. */
    method DealInitialCards()
      requires Valid()
      modifies player.hand, dealer.hand, deck
      ensures Valid()
      ensures InitialDeal(old(deck.cards)) == Deal(player.hand.cards, dealer.hand.cards, deck.cards)
    {
      InitialDealByDraws(deck.cards);
      player.hand.Reset();
      dealer.hand.Reset();
      var card := deck.DealCard();
      var _ := player.hand.AddCard(card);
      card := deck.DealCard();
      var _ := dealer.hand.AddCard(card);
      card := deck.DealCard();
      var _ := player.hand.AddCard(card);
      card := deck.DealCard();
      var _ := dealer.hand.AddCard(card);
    }

    /** The first part of a round: bet, deal, and the player's turn. */
    method BetDealAndPlayTurn(input: RoundInput) returns (turnEnd: TurnEnd)
      requires Valid()
      modifies player, player.hand, dealer.hand, deck
      ensures Valid()
      ensures var a := BetDealAndPlay(old(Snapshot()), input);
        && a.stakes == Stakes(player.money, player.currentBet)
        && a.dealer == dealer.hand.cards
        && a.turn.hand == player.hand.cards
        && a.turn.deck == deck.cards
        && a.turn.end == turnEnd
    {
      ghost var t := Snapshot();
      player.PlaceBet(input.bet);
      DealInitialCards();
      var _, end := player.PlayTurn(deck, input.decisions);
      turnEnd := end;
    }

    /** One pass of the game loop's body. */
    method PlayRound(input: RoundInput) returns (end: RoundEnd)
      requires Valid()
      modifies this, player, player.hand, dealer.hand, deck
      ensures Valid()
      ensures deck == old(deck) || fresh(deck)
      ensures RoundResult(Snapshot(), end) == Round(old(Snapshot()), input)
    {
      ghost var t := Snapshot();
      ghost var a := BetDealAndPlay(t, input);
      var turnEnd := BetDealAndPlayTurn(input);
      if turnEnd == InputEnded {
        return Aborted;
      }
      var playerTotal := player.hand.CalculateTotal();
      if playerTotal > 21 {
        return PlayerBusted;
      }
      end := DealerPlaysAndSettle(input);
    }

    /** The rest of a round the player stood in: the dealer's turn, the payout and a fresh deck if one is needed. */
    method DealerPlaysAndSettle(input: RoundInput) returns (end: RoundEnd)
      requires Valid()
      modifies this, player, dealer.hand, deck
      ensures Valid()
      ensures deck == old(deck) || fresh(deck)
      ensures player.hand.cards == old(player.hand.cards)
      ensures RoundResult(Snapshot(), end)
        == DealerAndSettle(Stakes(old(player.money), old(player.currentBet)), old(player.hand.cards),
                           old(dealer.hand.cards), old(deck.cards), input)
    {
      ghost var stakes := Stakes(player.money, player.currentBet);
      ghost var spec := DealerAndSettle(stakes, player.hand.cards, dealer.hand.cards, deck.cards, input);
      ghost var dt := DealerTurn(dealer.hand.cards, deck.cards);
      var stays := dealer.PlayTurn(deck);
      assert dealer.hand.cards == dt.hand && deck.cards == dt.deck;
      var outcome := DetermineWinner();
      assert player.money == stakes.money + Winnings(outcome, stakes.bet);
      end := Settled(outcome, input.again);
      assert spec.end == end;
      if input.again {
        ReplaceLowDeck(input.reshuffle);
      }
      assert spec.table == Snapshot();
    }

    /** Before another round: a deck with fewer than 10 cards is replaced by a new, shuffled one. */
    method ReplaceLowDeck(rng: nat -> nat)
      modifies this
      ensures deck == old(deck) || fresh(deck)
      ensures deck.cards == if |old(deck.cards)| < 10 then Shuffled(FullDeck(), rng) else old(deck.cards)
    {
      var remaining := deck.RemainingCards();
      if remaining < 10 {
        deck := new Deck();
        deck.Shuffle(rng);
      }
    }

    /** Plays rounds while the balance is positive, until input runs out or the player stops. */
    method PlayGameLoop(rounds: seq<RoundInput>)
      requires Valid()
      modifies this, player, player.hand, dealer.hand, deck
      ensures Valid()
      ensures Snapshot() == PlayGame(old(Snapshot()), rounds)
    {
      var played := 0;
      while player.money > 0 && played < |rounds|
        invariant Valid()
        invariant played <= |rounds|
        invariant deck == old(deck) || fresh(deck)
        invariant PlayGame(old(Snapshot()), rounds) == PlayGame(Snapshot(), rounds[played..])
        decreases |rounds| - played
      {
        ghost var rest := rounds[played..];
        var end := PlayRound(rounds[played]);
        played := played + 1;
        if EndsGame(end) {
          return;
        }
        assert rest[1..] == rounds[played..];
      }
    }
  }
}
