/** Moving cards from the deck to a hand. The deck is a stack: its last card is on top. */
module Dealing {
  import opened Deck

  /** The top n cards of the deck, in the order they are popped. */
  function Drawn(deck: seq<Card>, n: nat): seq<Card>
    requires n <= |deck|
  {
    seq(n, k requires 0 <= k < n => deck[|deck| - 1 - k])
  }

  /** Drawing one more card adds the next card below the ones already drawn. */
  lemma DrawnStep(deck: seq<Card>, n: nat)
    requires n < |deck|
    ensures Drawn(deck, n + 1) == Drawn(deck, n) + [deck[..|deck| - n][|deck| - n - 1]]
  {
  }

  /** The drawn cards and what is left of the deck are, together, the deck. */
  lemma {:induction false} DrawnSplit(deck: seq<Card>, n: nat)
    requires n <= |deck|
    ensures multiset(Drawn(deck, n)) + multiset(deck[..|deck| - n]) == multiset(deck)
  {
    if n > 0 {
      DrawnSplit(deck, n - 1);
      DrawnStep(deck, n - 1);
      var rest := deck[..|deck| - (n - 1)];
      assert rest == deck[..|deck| - n] + [rest[|rest| - 1]];
    } else {
      assert deck[..|deck|] == deck;
    }
  }

  /** A hand that took fewer cards off the top is the start of one that took more. */
  lemma {:induction false} DrawnPrefix(hand: seq<Card>, deck: seq<Card>, m: nat, n: nat)
    requires m <= n <= |deck|
    ensures (hand + Drawn(deck, n))[..|hand| + m] == hand + Drawn(deck, m)
  {
  }

  /**
   * `hand` has grown to `h` by cards taken one by one off the top of `deck`,
   * which is now `d`; no card was made or lost on the way.
   */
  predicate TookFromTop(hand: seq<Card>, deck: seq<Card>, h: seq<Card>, d: seq<Card>)
  {
    && |hand| <= |h| <= |hand| + |deck|
    && h == hand + Drawn(deck, |h| - |hand|)
    && d == deck[..|deck| - (|h| - |hand|)]
  }

  /** Taking cards off the top makes and loses no card. */
  lemma TookFromTopCounts(hand: seq<Card>, deck: seq<Card>, h: seq<Card>, d: seq<Card>)
    requires TookFromTop(hand, deck, h, d)
    ensures multiset(h) + multiset(d) == multiset(hand) + multiset(deck)
  {
    DrawnSplit(deck, |h| - |hand|);
  }

  /** Taking the top card of what is left keeps TookFromTop. */
  lemma TookOneMore(hand: seq<Card>, deck: seq<Card>, h: seq<Card>, d: seq<Card>)
    requires TookFromTop(hand, deck, h, d) && d != []
    ensures TookFromTop(hand, deck, h + Drawn(d, 1), d[..|d| - 1])
  {
  }

  /** The outcome of a deal: the new hand and deck, or the deck ran out. */
  datatype Dealt = Dealt(to: seq<Card>, from: seq<Card>) | DeckEmpty

  /**
   * Deal `amount` cards, one at a time, popping each from the end of `from`
   * and pushing it onto `to`. Popping an empty deck is fatal.
   */
  method DealCards(to: seq<Card>, from: seq<Card>, amount: nat) returns (r: Dealt)
    ensures r.DeckEmpty? <==> |from| < amount
    ensures r.Dealt? ==> r.to == to + Drawn(from, amount) && r.from == from[..|from| - amount]
    ensures r.Dealt? ==> multiset(r.to) + multiset(r.from) == multiset(to) + multiset(from)
  {
    var hand, deck := to, from;
    for i := 0 to amount
      invariant i <= |from|
      invariant deck == from[..|from| - i]
      invariant hand == to + Drawn(from, i)
      invariant multiset(hand) + multiset(deck) == multiset(to) + multiset(from)
    {
      if deck == [] {
        return DeckEmpty;
      }
      var card := deck[|deck| - 1];
      assert deck == deck[..|deck| - 1] + [card];
      DrawnStep(from, i);
      deck := deck[..|deck| - 1];
      hand := hand + [card];
    }
    return Dealt(hand, deck);
  }

  /** A top-cut of a top-cut of the deck is a top-cut of the deck. */
  lemma CutOfCut(deck: seq<Card>, mid: seq<Card>, low: seq<Card>)
    requires |mid| <= |deck| && mid == deck[..|mid|]
    requires |low| <= |mid| && low == mid[..|low|]
    ensures low == deck[..|low|]
  {
  }

  /**
   * Two hands that took cards off the top in turn, `p` growing to `h` out of
   * `deck` and then `dl` to `dh` out of what was left: between them the two
   * hands and the deck left hold exactly the cards at the start, and the
   * deck left is a top-cut of `deck`.
   */
  lemma TopCuts(p: seq<Card>, deck: seq<Card>, h: seq<Card>, mid: seq<Card>, dl: seq<Card>, dh: seq<Card>, rest: seq<Card>)
    requires TookFromTop(p, deck, h, mid) && TookFromTop(dl, mid, dh, rest)
    ensures multiset(h) + multiset(dh) + multiset(rest) == multiset(p) + multiset(dl) + multiset(deck)
    ensures |rest| <= |deck| && rest == deck[..|rest|]
  {
    TookFromTopCounts(p, deck, h, mid);
    TookFromTopCounts(dl, mid, dh, rest);
    TwoHandsCount(p, h, dl, dh, deck, mid, rest);
  }

  /**
   * The player's hand grew from `p` to `h` out of `deck`, leaving `mid`;
   * then the dealer's grew from `dl` to `dh` out of `mid`, leaving `rest`:
   * between them the two hands and `rest` hold exactly the cards at the start.
   */
  lemma TwoHandsCount(p: seq<Card>, h: seq<Card>, dl: seq<Card>, dh: seq<Card>,
                      deck: seq<Card>, mid: seq<Card>, rest: seq<Card>)
    requires multiset(h) + multiset(mid) == multiset(p) + multiset(deck)
    requires multiset(dh) + multiset(rest) == multiset(dl) + multiset(mid)
    ensures multiset(h) + multiset(dh) + multiset(rest) == multiset(p) + multiset(dl) + multiset(deck)
  {
    calc {
      multiset(h) + multiset(dh) + multiset(rest);
      multiset(h) + (multiset(dh) + multiset(rest));
      multiset(h) + multiset(mid) + multiset(dl);
      multiset(p) + multiset(dl) + multiset(deck);
    }
  }
}
