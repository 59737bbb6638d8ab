/**
 * A playing card: an immutable suit and rank, whose point value is a fixed
 * function of the rank alone.
 */
module Cards {

  /** The ranks worth ten points. */
  const TenRanks: set<string> := {"10", "Jack", "Queen", "King"}

  /** A one-character numeral rank "2" .. "9". */
  predicate IsNumeralRank(rank: string) {
    |rank| == 1 && '2' <= rank[0] <= '9'
  }

  /**
   * The point value of a rank. Matching is exact (and so case-sensitive):
   * any rank string other than the thirteen listed is worth nothing.
   */
  function RankValue(rank: string): (v: int)
    ensures 0 <= v <= 11
    ensures v == 11 <==> rank == "Ace"
    ensures v == 10 <==> rank in TenRanks
    ensures IsNumeralRank(rank) ==> v == rank[0] as int - '0' as int
    ensures v == 0 <==> !(rank == "Ace" || rank in TenRanks || IsNumeralRank(rank))
  {
    match rank
    case "Ace" => 11
    case "2" => 2
    case "3" => 3
    case "4" => 4
    case "5" => 5
    case "6" => 6
    case "7" => 7
    case "8" => 8
    case "9" => 9
    case "10" => 10
    case "Jack" => 10
    case "Queen" => 10
    case "King" => 10
    case _ =>
      assert |rank| == 1 ==> rank == [rank[0]];
      0
  }

  /** A card; `value` is fixed when the card is made (see NewCard) and never recomputed. */
  datatype Card = Card(suit: string, rank: string, value: int) {

    /** The stored value is the value of the card's rank, as the constructor sets it. */
    predicate Valued() {
      value == RankValue(rank)
    }

    /** The text "<rank> of <suit>". */
    function ToString(): (s: string)
      ensures |s| == |rank| + 4 + |suit|
      ensures s[..|rank|] == rank && s[|rank|..|rank| + 4] == " of " && s[|rank| + 4..] == suit
    {
      rank + " of " + suit
    }
  }

  /** Makes a card of the given suit and rank, working out its value from the rank once. */
  function NewCard(suit: string, rank: string): (c: Card)
    ensures c.suit == suit && c.rank == rank && c.Valued() && 0 <= c.value <= 11
  {
    Card(suit, rank, RankValue(rank))
  }
}
