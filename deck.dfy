/** Cards and the 52-card deck: building it in a fixed order and shuffling it. */
module Deck {

  /** The four suit icons of a card. */
  datatype Suit = Spades | Clubs | Hearts | Diamonds

  /** The thirteen rank symbols "2" .. "10", "J", "Q", "K", "A". */
  datatype Rank = Two | Three | Four | Five | Six | Seven | Eight | Nine | Ten | Jack | Queen | King | Ace

  /** A card is a rank and a suit; it never changes once made. */
  datatype Card = Card(rank: Rank, suit: Suit)

  /** The suits in the order the deck is generated. */
  const SUITS: seq<Suit> := [Spades, Clubs, Hearts, Diamonds]

  /** The ranks in the order the deck is generated. */
  const RANKS: seq<Rank> := [Two, Three, Four, Five, Six, Seven, Eight, Nine, Ten, Jack, Queen, King, Ace]

  /** Position of a suit in SUITS. */
  function SuitIndex(s: Suit): (i: nat)
    ensures i < |SUITS| && SUITS[i] == s
  {
    match s
    case Spades => 0
    case Clubs => 1
    case Hearts => 2
    case Diamonds => 3
  }

  /** Position of a rank in RANKS. */
  function RankIndex(r: Rank): (i: nat)
    ensures i < |RANKS| && RANKS[i] == r
  {
    match r
    case Two => 0
    case Three => 1
    case Four => 2
    case Five => 3
    case Six => 4
    case Seven => 5
    case Eight => 6
    case Nine => 7
    case Ten => 8
    case Jack => 9
    case Queen => 10
    case King => 11
    case Ace => 12
  }

  /**
   * The fresh deck: suit-major, each suit running through the ranks in order,
   * so it opens with the two of spades and its top (last) card is the ace of
   * diamonds.
   */
  function FullDeck(): (d: seq<Card>)
    ensures |d| == 52
    ensures d[0] == Card(Two, Spades) && d[51] == Card(Ace, Diamonds)
  {
    seq(52, k requires 0 <= k < 52 => Card(RANKS[k % 13], SUITS[k / 13]))
  }

  /** No card occurs twice in s. */
  predicate Distinct(s: seq<Card>)
  {
    forall i, j :: 0 <= i < j < |s| ==> s[i] != s[j]
  }

  lemma RanksDistinct(a: nat, b: nat)
    requires a < 13 && b < 13 && RANKS[a] == RANKS[b]
    ensures a == b
  {
    assert RankIndex(RANKS[a]) == a by {
      if a < 7 {
        if a < 4 { assert a == 0 || a == 1 || a == 2 || a == 3; }
        else { assert a == 4 || a == 5 || a == 6; }
      } else {
        if a < 10 { assert a == 7 || a == 8 || a == 9; }
        else { assert a == 10 || a == 11 || a == 12; }
      }
    }
    assert RankIndex(RANKS[b]) == b by {
      if b < 7 {
        if b < 4 { assert b == 0 || b == 1 || b == 2 || b == 3; }
        else { assert b == 4 || b == 5 || b == 6; }
      } else {
        if b < 10 { assert b == 7 || b == 8 || b == 9; }
        else { assert b == 10 || b == 11 || b == 12; }
      }
    }
  }

  lemma SuitsDistinct(a: nat, b: nat)
    requires a < 4 && b < 4 && SUITS[a] == SUITS[b]
    ensures a == b
  {
  }

  /** Every card of the fresh deck is at the position its suit and rank give it, and nowhere else. */
  lemma FullDeckPosition(c: Card, k: nat)
    requires k < 52
    ensures FullDeck()[k] == c <==> k == 13 * SuitIndex(c.suit) + RankIndex(c.rank)
  {
    var d := FullDeck();
    var home := 13 * SuitIndex(c.suit) + RankIndex(c.rank);
    assert home % 13 == RankIndex(c.rank) && home / 13 == SuitIndex(c.suit);
    if d[k] == c {
      RanksDistinct(k % 13, RankIndex(c.rank));
      SuitsDistinct(k / 13, SuitIndex(c.suit));
    }
  }

  /** A fresh deck holds 52 cards, no two alike, and every rank/suit pair among them. */
  lemma FullDeckComplete()
    ensures |FullDeck()| == 52
    ensures Distinct(FullDeck())
    ensures forall c: Card :: c in FullDeck()
  {
    var d := FullDeck();
    forall i, j | 0 <= i < j < |d| ensures d[i] != d[j] {
      FullDeckPosition(d[i], i);
      FullDeckPosition(d[i], j);
    }
    forall c: Card ensures c in d {
      var home := 13 * SuitIndex(c.suit) + RankIndex(c.rank);
      FullDeckPosition(c, home);
    }
  }

  /** In a sequence without repetitions every member occurs exactly once. */
  lemma {:induction false} DistinctOnce(s: seq<Card>, c: Card)
    requires Distinct(s)
    ensures multiset(s)[c] == if c in s then 1 else 0
  {
    if s != [] {
      var init := s[..|s| - 1];
      assert s == init + [s[|s| - 1]];
      assert Distinct(init);
      DistinctOnce(init, c);
      assert s[|s| - 1] !in init;
    }
  }

  /** Exactly one card of every rank/suit pair is in a fresh deck. */
  lemma FullDeckExactlyOnce()
    ensures forall c: Card :: multiset(FullDeck())[c] == 1
  {
    FullDeckComplete();
    forall c: Card ensures multiset(FullDeck())[c] == 1 {
      DistinctOnce(FullDeck(), c);
    }
  }

  /** A deck whose cards all come out of one fresh deck holds no card twice. */
  lemma NoCardTwice(deck: seq<Card>)
    requires multiset(deck) <= multiset(FullDeck())
    ensures forall c: Card :: multiset(deck)[c] <= 1
    ensures Distinct(deck)
  {
    FullDeckExactlyOnce();
    forall i, j | 0 <= i < j < |deck| ensures deck[i] != deck[j] {
      assert deck == deck[..i] + [deck[i]] + deck[i + 1..j] + [deck[j]] + deck[j + 1..];
      assert multiset(deck)[deck[i]] >= 1 + multiset([deck[j]])[deck[i]];
    }
  }

  /** Build the deck by pushing one card per suit and rank, suit by suit. */
  method CreateDeck() returns (deck: seq<Card>)
    ensures deck == FullDeck()
    ensures |deck| == 52
    ensures forall c: Card :: multiset(deck)[c] == 1
  {
    deck := [];
    for i := 0 to |SUITS|
      invariant |deck| == 13 * i
      invariant forall k :: 0 <= k < |deck| ==> deck[k] == Card(RANKS[k % 13], SUITS[k / 13])
    {
      for j := 0 to |RANKS|
        invariant |deck| == 13 * i + j
        invariant forall k :: 0 <= k < |deck| ==> deck[k] == Card(RANKS[k % 13], SUITS[k / 13])
      {
        assert (13 * i + j) % 13 == j && (13 * i + j) / 13 == i;
        deck := deck + [Card(RANKS[j], SUITS[i])];
      }
    }
    FullDeckExactlyOnce();
  }

  /**
   * Shuffle in place the way a Fisher-Yates shuffle does: from the last
   * position down to the second, swap with a position chosen at or below it.
   * draw(i) is the random number the generator produced for step i.
   */
  method ShuffleDeck(deck: seq<Card>, draw: nat -> nat) returns (shuffled: seq<Card>)
    ensures |shuffled| == |deck|
    ensures multiset(shuffled) == multiset(deck)
  {
    shuffled := deck;
    var i := |deck|;
    while i > 1
      invariant i <= |deck|
      invariant |shuffled| == |deck|
      invariant multiset(shuffled) == multiset(deck)
    {
      i := i - 1;
      var j := draw(i) % (i + 1);
      var a, b := shuffled[i], shuffled[j];
      shuffled := shuffled[i := b][j := a];
    }
  }
}
