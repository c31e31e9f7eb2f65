/** The value of a hand under the soft-ace rule. */
module Hand {
  import opened Deck

  /** Points a rank is first counted at: an ace 11, ten and face cards 10, the rest their number. */
  function RankValue(r: Rank): (v: nat)
    ensures 2 <= v <= 11
    ensures v == 11 <==> r == Ace
  {
    match r
    case Two => 2
    case Three => 3
    case Four => 4
    case Five => 5
    case Six => 6
    case Seven => 7
    case Eight => 8
    case Nine => 9
    case Ten | Jack | Queen | King => 10
    case Ace => 11
  }

  /** How many aces the hand holds. */
  function AceCount(hand: seq<Card>): (n: nat)
    ensures n <= |hand|
  {
    if hand == [] then 0
    else AceCount(hand[..|hand| - 1]) + (if hand[|hand| - 1].rank == Ace then 1 else 0)
  }

  /** The sum of the hand with every ace at 11, which is at least 11 for every ace. */
  function RawSum(hand: seq<Card>): (total: nat)
    ensures total >= 11 * AceCount(hand)
    ensures total >= 2 * |hand|
  {
    if hand == [] then 0
    else RawSum(hand[..|hand| - 1]) + RankValue(hand[|hand| - 1].rank)
  }

  /**
   * How many aces must drop from 11 to 1: the fewest that bring the total
   * to 21 or below, or all of them when that is not enough.
   */
  function Demotions(total: nat, aces: nat): nat
  {
    if total <= 21 then 0
    else if (total - 12) / 10 <= aces then (total - 12) / 10
    else aces
  }

  /**
   * The hand's value: the raw sum less 10 for every demoted ace. No ace is
   * demoted while the raw sum is at most 21, so a hand without aces, or one
   * that fits, is worth its raw sum.
   */
  function HandValue(hand: seq<Card>): (v: nat)
    ensures v <= RawSum(hand)
    ensures RawSum(hand) <= 21 || AceCount(hand) == 0 ==> v == RawSum(hand)
  {
    RawSum(hand) - 10 * Demotions(RawSum(hand), AceCount(hand))
  }

  /**
   * The demotion count is the only count that (a) demotes no more aces than
   * there are, (b) leaves the total at 21 or below unless every ace is
   * demoted, and (c) demotes an ace only while the total would otherwise
   * exceed 21.
   */
  lemma DemotionsUnique(total: nat, aces: nat, d: nat)
    requires d <= aces && 10 * d <= total
    requires total - 10 * d <= 21 || d == aces
    requires d > 0 ==> total - 10 * d + 10 > 21
    ensures d == Demotions(total, aces)
  {
  }

  /**
   * After scoring, either the value is at most 21 or every ace has been
   * demoted; no ace is demoted twice; and an ace is demoted only when
   * keeping it at 11 would bust the hand.
   */
  lemma SoftAceRule(hand: seq<Card>)
    ensures var d := Demotions(RawSum(hand), AceCount(hand));
      && d <= AceCount(hand)
      && HandValue(hand) == RawSum(hand) - 10 * d
      && (HandValue(hand) <= 21 || d == AceCount(hand))
      && (d > 0 ==> HandValue(hand) + 10 > 21)
  {
  }

  /** The value never exceeds the raw sum and never drops below the number of cards. */
  lemma HandValueBounds(hand: seq<Card>)
    ensures |hand| <= HandValue(hand) <= RawSum(hand)
  {
    RawAtLeastOnePerCard(hand);
  }

  /** Counting aces at 1, every card is worth at least 1 on top of ten per ace. */
  lemma {:induction false} RawAtLeastOnePerCard(hand: seq<Card>)
    ensures RawSum(hand) >= |hand| + 10 * AceCount(hand)
  {
    if hand != [] {
      RawAtLeastOnePerCard(hand[..|hand| - 1]);
    }
  }

  /** Counting one more card of the hand. */
  lemma PrefixStep(hand: seq<Card>, i: nat)
    requires i < |hand|
    ensures RawSum(hand[..i + 1]) == RawSum(hand[..i]) + RankValue(hand[i].rank)
    ensures AceCount(hand[..i + 1]) == AceCount(hand[..i]) + (if hand[i].rank == Ace then 1 else 0)
  {
    assert hand[..i + 1][..i] == hand[..i];
  }

  /** Raw sum and ace count of a two-card hand. */
  lemma TwoCards(a: Card, b: Card)
    ensures RawSum([a, b]) == RankValue(a.rank) + RankValue(b.rank)
    ensures AceCount([a, b]) == (if a.rank == Ace then 1 else 0) + (if b.rank == Ace then 1 else 0)
  {
    assert [a, b][..1] == [a];
    assert [a][..0] == [];
    assert RawSum([a]) == RankValue(a.rank) && AceCount([a]) == (if a.rank == Ace then 1 else 0);
  }

  /** No two-card hand is over 21: two aces count 12. */
  lemma TwoCardsFit(a: Card, b: Card)
    ensures HandValue([a, b]) <= 21
  {
    TwoCards(a, b);
  }

  /** Raw sum and ace count of a three-card hand. */
  lemma ThreeCards(a: Card, b: Card, c: Card)
    ensures RawSum([a, b, c]) == RankValue(a.rank) + RankValue(b.rank) + RankValue(c.rank)
    ensures AceCount([a, b, c]) ==
      (if a.rank == Ace then 1 else 0) + (if b.rank == Ace then 1 else 0) + (if c.rank == Ace then 1 else 0)
  {
    assert [a, b, c][..2] == [a, b];
    TwoCards(a, b);
  }

  /** Two aces are worth 12; an ace and a king are worth 21. */
  lemma TwoCardExamples()
    ensures HandValue([Card(Ace, Spades), Card(Ace, Hearts)]) == 12
    ensures HandValue([Card(Ace, Clubs), Card(King, Diamonds)]) == 21
  {
    TwoCards(Card(Ace, Spades), Card(Ace, Hearts));
    TwoCards(Card(Ace, Clubs), Card(King, Diamonds));
  }

  /** Two aces and a nine are worth 21; king, king, five is 25, a bust. */
  lemma ThreeCardExamples()
    ensures HandValue([Card(Ace, Spades), Card(Ace, Hearts), Card(Nine, Clubs)]) == 21
    ensures HandValue([Card(King, Spades), Card(King, Hearts), Card(Five, Clubs)]) == 25
  {
    ThreeCards(Card(Ace, Spades), Card(Ace, Hearts), Card(Nine, Clubs));
    ThreeCards(Card(King, Spades), Card(King, Hearts), Card(Five, Clubs));
  }

  /** The raw sum and the aces of a hand are those of its first k cards plus those of the rest. */
  lemma {:induction false} RawSumSplit(hand: seq<Card>, k: nat)
    requires k <= |hand|
    ensures RawSum(hand) == RawSum(hand[..k]) + RawSum(hand[k..])
    ensures AceCount(hand) == AceCount(hand[..k]) + AceCount(hand[k..])
    decreases |hand|
  {
    if k == |hand| {
      assert hand[..k] == hand && hand[k..] == [];
    } else {
      var prior := hand[..|hand| - 1];
      RawSumSplit(prior, k);
      var rest := hand[k..];
      assert prior[..k] == hand[..k];
      assert rest[..|rest| - 1] == prior[k..] && rest[|rest| - 1] == hand[|hand| - 1];
    }
  }

  /** Once over 21 a hand stays over 21 whatever it is dealt: all its aces already count 1. */
  lemma {:induction false} BustStays(hand: seq<Card>, k: nat)
    requires k <= |hand| && HandValue(hand[..k]) > 21
    ensures HandValue(hand) > 21
  {
    RawSumSplit(hand, k);
    SoftAceRule(hand[..k]);
    SoftAceRule(hand);
    RawAtLeastOnePerCard(hand[k..]);
  }

  /** The value the hand had when it held its first j cards. */
  function PrefixValue(hand: seq<Card>, j: nat): nat
    requires j <= |hand|
    decreases |hand|
  {
    if j == |hand| then HandValue(hand) else PrefixValue(hand[..|hand| - 1], j)
  }

  /** The value of the first j cards depends on those cards alone. */
  lemma {:induction false} PrefixValueIs(hand: seq<Card>, j: nat)
    requires j <= |hand|
    ensures PrefixValue(hand, j) == HandValue(hand[..j])
    decreases |hand|
  {
    if j == |hand| {
      assert hand[..j] == hand;
    } else {
      PrefixValueIs(hand[..|hand| - 1], j);
      assert hand[..|hand| - 1][..j] == hand[..j];
    }
  }

  /** Adding cards changes none of the earlier values, and the full old hand is one of them. */
  lemma PrefixValueExtend(hand: seq<Card>, more: seq<Card>)
    ensures forall j :: 0 <= j <= |hand| ==> PrefixValue(hand + more, j) == PrefixValue(hand, j)
    ensures PrefixValue(hand + more, |hand|) == HandValue(hand)
  {
    forall j | 0 <= j <= |hand| ensures PrefixValue(hand + more, j) == PrefixValue(hand, j) {
      PrefixValueIs(hand + more, j);
      PrefixValueIs(hand, j);
      assert (hand + more)[..j] == hand[..j];
    }
  }

  /**
   * Score a hand as the game does: add up every card with aces at 11,
   * then take 10 off per ace while the total is over 21 and aces remain.
   */
  method CardsValue(hand: seq<Card>) returns (total: nat)
    ensures total == HandValue(hand)
  {
    total := 0;
    var aces: nat := 0;
    for i := 0 to |hand|
      invariant total == RawSum(hand[..i])
      invariant aces == AceCount(hand[..i])
    {
      PrefixStep(hand, i);
      if hand[i].rank == Ace {
        total := total + 11;
        aces := aces + 1;
      } else if hand[i].rank in {Ten, Jack, Queen, King} {
        total := total + 10;
      } else {
        // "2" .. "9": the number the rank symbol parses to
        total := total + RankValue(hand[i].rank);
      }
    }
    assert hand[..|hand|] == hand;
    ghost var raw := total;
    ghost var demoted: nat := 0;
    while total > 21 && aces > 0
      invariant demoted + aces == AceCount(hand)
      invariant 10 * demoted <= raw && total == raw - 10 * demoted
      invariant demoted > 0 ==> total + 10 > 21
    {
      total := total - 10;
      aces := aces - 1;
      demoted := demoted + 1;
    }
    DemotionsUnique(raw, AceCount(hand), demoted);
  }
}
