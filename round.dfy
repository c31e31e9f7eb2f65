/**
 * One session at the table: rounds of bet, deal, naturals, the player's
 * turn, the dealer's turn and the payout, repeated while the player has
 * some money but not the most a u32 can hold.
 *
 * Standard input is a finite list of lines, each already parsed to the
 * natural number it spells (or to Garbage). The random generator and the
 * outcome of each save are parameters.
 */
module Round {
  import opened Deck
  import opened Hand
  import opened Dealing
  import opened Ledger

  /** What a line typed at a prompt parses to: a natural number, or anything else. */
  datatype Line = Garbage | Number(value: nat)

  /** A deck with fewer cards than this is replaced by a fresh shuffled one before dealing. */
  const RESHUFFLE_BELOW: nat := 26

  // ---------------------------------------------------------------- betting

  /** The bet prompt's verdict on one line. */
  datatype Bet = Unparsable | TooMuch | Placed(bet: nat, wealth: nat)

  /**
   * A bet is a line that parses as a u32 and is at most the wealth; it is
   * debited at once. Zero is a valid bet.
   */
  function PlaceBet(wealth: nat, line: Line): (r: Bet)
    requires wealth <= U32_MAX
    ensures r.Placed? <==> line.Number? && line.value <= wealth
    ensures r.Placed? ==> r.bet == line.value && r.wealth + r.bet == wealth
    ensures r.Unparsable? <==> !line.Number? || line.value > U32_MAX
  {
    if !line.Number? || line.value > U32_MAX then Unparsable
    else if line.value > wealth then TooMuch
    else Placed(line.value, Debit(wealth, line.value))
  }

  // ---------------------------------------------------------------- outcomes

  /** How a round ends, one constructor per branch of the resolution. */
  datatype Outcome =
    | BothBlackjack | PlayerBlackjack | DealerBlackjack
    | PlayerBust | DealerBust | SameValue | PlayerCloser | DealerCloser
  {
    /** Decided by the first two cards of each hand, before the player acts. */
    predicate Natural() { BothBlackjack? || PlayerBlackjack? || DealerBlackjack? }
  }

  /** What the round pays back: twice the stake on a win, the stake on a draw, nothing on a loss. */
  function Payout(o: Outcome, stake: nat): (paid: nat)
    ensures paid == 0 || paid == stake || paid == 2 * stake
    ensures o == PlayerBust || o == DealerBlackjack ==> paid == 0
  {
    match o
    case BothBlackjack | SameValue => stake
    case PlayerBlackjack | DealerBust | PlayerCloser => 2 * stake
    case DealerBlackjack | PlayerBust | DealerCloser => 0
  }

  /** The outcome of a round from the final hands, the first two cards of each being the initial deal. */
  function Verdict(player: seq<Card>, dealer: seq<Card>): (o: Outcome)
    requires |player| >= 2 && |dealer| >= 2
    ensures o.Natural() <==> HandValue(player[..2]) == 21 || HandValue(dealer[..2]) == 21
    ensures !o.Natural() ==> (o == PlayerBust <==> HandValue(player) > 21)
    ensures o == DealerBust ==> HandValue(player) <= 21 < HandValue(dealer)
    ensures o == SameValue ==> HandValue(player) == HandValue(dealer) <= 21
  {
    var p, d := HandValue(player), HandValue(dealer);
    if HandValue(player[..2]) == 21 && HandValue(dealer[..2]) == 21 then BothBlackjack
    else if HandValue(player[..2]) == 21 then PlayerBlackjack
    else if HandValue(dealer[..2]) == 21 then DealerBlackjack
    else if p > 21 then PlayerBust
    else if d > 21 then DealerBust
    else if p == d then SameValue
    else if p > d then PlayerCloser
    else DealerCloser
  }

  /** After the initial deal: a shared 21 refunds, the player's alone pays double, the dealer's alone pays nothing. */
  lemma NaturalsPay(player: seq<Card>, dealer: seq<Card>, stake: nat)
    requires |player| == 2 && |dealer| == 2
    requires HandValue(player) == 21 || HandValue(dealer) == 21
    ensures Verdict(player, dealer).Natural()
    ensures var paid := Payout(Verdict(player, dealer), stake);
      && (HandValue(player) == 21 && HandValue(dealer) == 21 ==> paid == stake)
      && (HandValue(player) == 21 && HandValue(dealer) != 21 ==> paid == 2 * stake)
      && (HandValue(player) != 21 ==> paid == 0)
  {
    assert player[..2] == player && dealer[..2] == dealer;
  }

  /**
   * Without naturals, the player is paid double exactly when they did not
   * bust and the dealer busted or ended lower, gets the stake back exactly
   * when the two values are equal, and gets nothing when they busted or the
   * dealer ended higher without busting.
   */
  lemma ShowdownPays(player: seq<Card>, dealer: seq<Card>, stake: nat)
    requires |player| >= 2 && |dealer| >= 2
    requires HandValue(player[..2]) != 21 && HandValue(dealer[..2]) != 21
    ensures var p, d := HandValue(player), HandValue(dealer);
      var paid := Payout(Verdict(player, dealer), stake);
      && (p <= 21 && (d > 21 || p > d) ==> paid == 2 * stake)
      && (p <= 21 && d <= 21 && p == d ==> paid == stake)
      && (p > 21 || (d <= 21 && d > p) ==> paid == 0)
  {
  }

  /**
   * A whole natural round: with 10 in the bank and all of it bet, ace and
   * king against nine and eight is a player blackjack and leaves 20.
   */
  lemma BlackjackRoundExample()
    ensures var player, dealer := [Card(Ace, Spades), Card(King, Hearts)], [Card(Nine, Clubs), Card(Eight, Diamonds)];
      && Verdict(player, dealer) == PlayerBlackjack
      && Credit(Debit(10, 10), Payout(Verdict(player, dealer), 10)) == 20
  {
    var player, dealer := [Card(Ace, Spades), Card(King, Hearts)], [Card(Nine, Clubs), Card(Eight, Diamonds)];
    TwoCards(player[0], player[1]);
    TwoCards(dealer[0], dealer[1]);
    assert player[..2] == player && dealer[..2] == dealer;
  }

  // ---------------------------------------------------------------- the player's turn

  /**
   * The counter `index` is a u8 that starts at 0 at each pass of the turn
   * loop and is incremented before each read; at the k-th read (from 0) of
   * one pass it holds (k + 1) mod 256.
   */
  function PromptIndex(k: nat): (index: nat)
    ensures index < 256
    ensures k < 255 ==> index == k + 1
    ensures k == 255 ==> index == 0
  {
    (k + 1) % 256
  }

  /**
   * The action prompt accepts a line that parses as a number from 0 to 3;
   * 3 (double down) only while the wealth covers the bet and `index` is at
   * most 1.
   */
  predicate Accepts(line: Line, index: nat, wealth: nat, bet: nat)
    ensures Accepts(line, index, wealth, bet) ==> line.Number? && line.value <= 3
    ensures line.Number? && line.value <= 2 ==> Accepts(line, index, wealth, bet)
    ensures line == Number(3) ==> (Accepts(line, index, wealth, bet) <==> wealth >= bet && index <= 1)
  {
    line.Number? && line.value <= 3 && (line.value == 3 ==> wealth >= bet && index <= 1)
  }

  /** An optional value. */
  datatype Option<T> = Some(value: T) | None

  /** An answer the action prompt accepted: the choice, and the position after its line. */
  datatype Read = Read(choice: nat, next: nat)

  /**
   * `a` is what a prompt that starts reading at `from` gets: the line just
   * before `a.next` is the first line from `from` on that the prompt accepts.
   */
  ghost predicate Picks(lines: seq<Line>, from: nat, wealth: nat, bet: nat, a: Read)
  {
    && from < a.next <= |lines|
    && Accepts(lines[a.next - 1], PromptIndex(a.next - 1 - from), wealth, bet)
    && a.choice == lines[a.next - 1].value
    && forall k :: from <= k < a.next - 1 ==> !Accepts(lines[k], PromptIndex(k - from), wealth, bet)
  }

  /** No line from `from` on is accepted by a prompt that starts reading there. */
  ghost predicate Refused(lines: seq<Line>, from: nat, wealth: nat, bet: nat)
  {
    forall k :: from <= k < |lines| ==> !Accepts(lines[k], PromptIndex(k - from), wealth, bet)
  }

  /**
   * Read lines from position `start` until one is accepted; every rejected
   * line re-prompts. None when the lines run out first.
   */
  method ReadChoice(lines: seq<Line>, start: nat, wealth: nat, bet: nat) returns (r: Option<Read>)
    requires start <= |lines|
    ensures r.Some? ==> Picks(lines, start, wealth, bet, r.value) && r.value.choice <= 3
    ensures r.None? ==> Refused(lines, start, wealth, bet)
  {
    var index := 0;
    var k := start;
    while k < |lines|
      invariant start <= k <= |lines|
      invariant index == (k - start) % 256
      invariant forall j :: start <= j < k ==> !Accepts(lines[j], PromptIndex(j - start), wealth, bet)
    {
      index := (index + 1) % 256;
      var line := lines[k];
      k := k + 1;
      if !line.Number? || line.value > 255 {
        continue;
      }
      var n := line.value;
      if n > 3 {
        continue;
      }
      if n == 3 {
        if wealth < bet {
          continue;
        } else if index > 1 {
          continue;
        }
      }
      return Some(Read(n, k));
    }
    return None;
  }

  /** A fatal condition that ends the session. */
  datatype Failure = NoInput | DeckExhausted

  /** How the player's turn ended. */
  datatype TurnEnd = Stood | DoubledDown | Busted

  /** The state after the player's turn. */
  datatype Turn =
    | Turn(end: TurnEnd, hand: seq<Card>, deck: seq<Card>, wealth: nat, bet: nat, next: nat)
    | TurnFailed(failure: Failure)

  /**
   * Deal one card to a hand that has so far taken cards off the top of
   * `deck`: the earlier values of the hand stay as they were and the hand
   * before the card becomes one of them.
   */
  method Hit(hand: seq<Card>, deck: seq<Card>, h: seq<Card>, d: seq<Card>) returns (r: Dealt)
    requires TookFromTop(hand, deck, h, d)
    ensures r.DeckEmpty? <==> d == []
    ensures r.Dealt? ==> TookFromTop(hand, deck, r.to, r.from) && |r.to| == |h| + 1
    ensures r.Dealt? ==> forall j :: 0 <= j < |h| ==> PrefixValue(r.to, j) == PrefixValue(h, j)
    ensures r.Dealt? ==> PrefixValue(r.to, |h|) == HandValue(h)
  {
    r := DealCards(h, d, 1);
    if r.Dealt? {
      TookOneMore(hand, deck, h, d);
      PrefixValueExtend(h, Drawn(d, 1));
    }
  }

  /** Where the prompt for the i-th answer starts reading: at `start`, then just after the previous answer. */
  function ReadFrom(start: nat, answers: seq<Read>, i: nat): nat
    requires i <= |answers|
  {
    if i == 0 then start else answers[i - 1].next
  }

  /**
   * Each answer is the one its prompt picks, each prompt reading on from
   * where the previous one stopped; a prompt follows only a 0 or a 1.
   */
  ghost predicate Answered(lines: seq<Line>, start: nat, wealth: nat, bet: nat, answers: seq<Read>)
    decreases |answers|
  {
    answers == [] ||
      var prior := answers[..|answers| - 1];
      && Answered(lines, start, wealth, bet, prior)
      && (prior != [] ==> prior[|prior| - 1].choice <= 1)
      && Picks(lines, ReadFrom(start, prior, |prior|), wealth, bet, answers[|answers| - 1])
  }

  /** Every answer before the last is a 0 or a 1, and every answer is a number from 0 to 3. */
  lemma {:induction false} AnsweredChoices(lines: seq<Line>, start: nat, wealth: nat, bet: nat, answers: seq<Read>)
    requires Answered(lines, start, wealth, bet, answers)
    ensures forall i :: 0 <= i < |answers| - 1 ==> answers[i].choice <= 1
    ensures forall i :: 0 <= i < |answers| ==> answers[i].choice <= 3
    decreases |answers|
  {
    if answers != [] {
      var prior := answers[..|answers| - 1];
      AnsweredChoices(lines, start, wealth, bet, prior);
      assert forall i :: 0 <= i < |prior| ==> answers[i] == prior[i];
    }
  }

  /** How many of the answers deal a card: every 1 (hit) and every 3 (double down). */
  function Hits(answers: seq<Read>): (n: nat)
    ensures n <= |answers|
  {
    if answers == [] then 0
    else Hits(answers[..|answers| - 1]) + (if answers[|answers| - 1].choice in {1, 3} then 1 else 0)
  }

  /** The last answer asked to double down. */
  predicate DoublesDown(answers: seq<Read>)
  {
    |answers| > 0 && answers[|answers| - 1].choice == 3
  }

  /**
   * The player's turn went as the answers read from `start` ask: every
   * answer before the last is 0 (nothing) or 1 (hit) (see Answered), the
   * last is not 0, one card is dealt per 1 and per 3, the stake doubles
   * exactly on a final 3, and the next unread line is the one after the
   * last answer. The hand ends at `value`: over 21 after a final 1 (the
   * turn goes on while a hit leaves it at most 21), at most 21 after a
   * final 2.
   */
  ghost predicate AsAnswered(lines: seq<Line>, start: nat, wealth: nat, bet: nat, answers: seq<Read>,
                             cards: nat, value: nat, stake: nat, next: nat)
  {
    && Answered(lines, start, wealth, bet, answers)
    && next == ReadFrom(start, answers, |answers|)
    && cards == Hits(answers)
    && (|answers| > 0 ==> answers[|answers| - 1].choice != 0)
    && (|answers| > 0 && answers[|answers| - 1].choice == 1 ==> value > 21)
    && (|answers| > 0 && answers[|answers| - 1].choice == 2 ==> value <= 21)
    && stake == (if DoublesDown(answers) then 2 * bet else bet)
  }

  /** One more answer, picked where the previous ones stopped. */
  lemma AnsweredStep(lines: seq<Line>, start: nat, wealth: nat, bet: nat, answers: seq<Read>, a: Read)
    requires Answered(lines, start, wealth, bet, answers) && (answers != [] ==> answers[|answers| - 1].choice <= 1)
    requires Picks(lines, ReadFrom(start, answers, |answers|), wealth, bet, a)
    ensures Answered(lines, start, wealth, bet, answers + [a])
    ensures ReadFrom(start, answers + [a], |answers| + 1) == a.next
    ensures Hits(answers + [a]) == Hits(answers) + (if a.choice in {1, 3} then 1 else 0)
  {
    assert (answers + [a])[..|answers|] == answers;
  }

  /**
   * After `answers` the turn is still on: each answer was picked in turn,
   * none ended the turn (each is a 0 or a 1), the deck held the cards they
   * asked for, and the hand they leave is worth at most 21.
   */
  ghost predicate Playing(lines: seq<Line>, start: nat, wealth: nat, bet: nat,
                          hand: seq<Card>, deck: seq<Card>, answers: seq<Read>)
  {
    && Answered(lines, start, wealth, bet, answers)
    && (answers != [] ==> answers[|answers| - 1].choice <= 1)
    && Hits(answers) <= |deck|
    && HandValue(hand + Drawn(deck, Hits(answers))) <= 21
  }

  /**
   * Why the player's turn on `hand`, dealt from `deck`, failed after
   * `answers`: NoInput when the turn was still on and no later line is
   * accepted; DeckExhausted when the turn was still on, had taken every
   * card of the deck, and the last answer asked for one more (a 1 or a 3).
   */
  ghost predicate TurnStops(lines: seq<Line>, start: nat, wealth: nat, bet: nat,
                            hand: seq<Card>, deck: seq<Card>, answers: seq<Read>, f: Failure)
  {
    match f
    case NoInput =>
      && Playing(lines, start, wealth, bet, hand, deck, answers)
      && Refused(lines, ReadFrom(start, answers, |answers|), wealth, bet)
    case DeckExhausted =>
      && answers != []
      && Answered(lines, start, wealth, bet, answers)
      && Playing(lines, start, wealth, bet, hand, deck, answers[..|answers| - 1])
      && Hits(answers[..|answers| - 1]) == |deck|
      && answers[|answers| - 1].choice in {1, 3}
  }

  /** An answer asking for a card when the playing hand has taken the whole deck stops the turn for want of cards. */
  lemma RanOutOfCards(lines: seq<Line>, start: nat, wealth: nat, bet: nat, hand: seq<Card>, deck: seq<Card>,
                      answers: seq<Read>, a: Read, h: seq<Card>)
    requires Playing(lines, start, wealth, bet, hand, deck, answers) && Answered(lines, start, wealth, bet, answers + [a])
    requires TookFromTop(hand, deck, h, []) && |h| == |hand| + Hits(answers) && a.choice in {1, 3}
    ensures TurnStops(lines, start, wealth, bet, hand, deck, answers + [a], DeckExhausted)
  {
    assert (answers + [a])[..|answers|] == answers;
  }

  /**
   * What one prompt of the player's turn leads to: the answer and the hand
   * and deck after it; no line accepted; or an answer asking for a card
   * when the deck is empty.
   */
  datatype Act = Act(read: Read, hand: seq<Card>, deck: seq<Card>) | NoLine | NoCard(read: Read)

  /**
   * One prompt of the player's turn: read an answer from `next` on and act
   * on it. A 1 or a 3 deals one card to `h`; a 0 or a 2 leaves it as it is.
   */
  method PlayerAct(hand: seq<Card>, deck: seq<Card>, h: seq<Card>, d: seq<Card>,
                   wealth: nat, bet: nat, lines: seq<Line>, next: nat) returns (r: Act)
    requires TookFromTop(hand, deck, h, d) && next <= |lines|
    requires forall j :: |hand| <= j < |h| ==> PrefixValue(h, j) <= 21
    requires HandValue(h) <= 21
    ensures r.Act? || r.NoCard? ==> Picks(lines, next, wealth, bet, r.read)
    ensures r.Act? ==> TookFromTop(hand, deck, r.hand, r.deck)
    ensures r.Act? ==> |r.hand| == |h| + (if r.read.choice in {1, 3} then 1 else 0)
    ensures r.Act? ==> forall j :: |hand| <= j < |r.hand| ==> PrefixValue(r.hand, j) <= 21
    ensures r.Act? && r.read.choice !in {1, 3} ==> r.hand == h && r.deck == d
    ensures r.Act? && r.read.choice == 3 ==> wealth >= bet
    ensures r.NoLine? ==> Refused(lines, next, wealth, bet)
    ensures r.NoCard? ==> r.read.choice in {1, 3} && d == []
  {
    var answer := ReadChoice(lines, next, wealth, bet);
    if answer.None? {
      return NoLine;
    }
    var read := answer.value;
    if read.choice == 1 || read.choice == 3 {
      var dealt := Hit(hand, deck, h, d);
      if dealt.DeckEmpty? {
        return NoCard(read);
      }
      return Act(read, dealt.to, dealt.from);
    }
    return Act(read, h, d);
  }

  /**
   * While the hand is at most 21: 1 hits, 2 stands, 3 doubles down (debit
   * the bet again, double it, take exactly one card, stop); 0 does nothing.
   * `answers` are the answers read, in order.
   */
  method PlayerTurn(hand: seq<Card>, deck: seq<Card>, wealth: nat, bet: nat, lines: seq<Line>, start: nat)
    returns (r: Turn, ghost answers: seq<Read>)
    requires wealth <= U32_MAX && start <= |lines|
    ensures r.Turn? ==> TookFromTop(hand, deck, r.hand, r.deck)
    ensures r.Turn? ==> AsAnswered(lines, start, wealth, bet, answers, |r.hand| - |hand|, HandValue(r.hand), r.bet, r.next)
    ensures r.Turn? ==> (|answers| == 0 <==> HandValue(hand) > 21)
    ensures r.Turn? ==> forall j :: |hand| <= j < |r.hand| ==> PrefixValue(r.hand, j) <= 21
    ensures r.Turn? ==> (r.end == Stood <==> |answers| > 0 && answers[|answers| - 1].choice == 2)
    ensures r.Turn? ==> (r.end == DoubledDown <==> DoublesDown(answers))
    ensures r.Turn? && r.end == Stood ==> HandValue(r.hand) <= 21
    ensures r.Turn? && r.end == Busted ==> HandValue(r.hand) > 21
    ensures r.Turn? && r.end == DoubledDown ==> wealth >= bet && r.wealth == wealth - bet
    ensures r.Turn? && r.end != DoubledDown ==> r.wealth == wealth
    ensures r.Turn? ==> r.wealth + r.bet == wealth + bet && (r.bet == bet || (r.bet == 2 * bet && bet <= wealth))
    ensures r.Turn? ==> start <= r.next <= |lines|
    ensures r.TurnFailed? ==> TurnStops(lines, start, wealth, bet, hand, deck, answers, r.failure)
  {
    r, answers := Prompts(hand, deck, wealth, bet, lines, start);
    if r.Turn? && r.end == DoubledDown {
      r := Turn(DoubledDown, r.hand, r.deck, Debit(wealth, bet), 2 * bet, r.next);
    }
  }

  /**
   * The player's turn so far: `hand` has grown to `h` off the top of `deck`,
   * leaving `d`, one card per 1 or 3 answered and staying within 21 at
   * every card; the answers were picked in turn from `start`, and `next`
   * is the line after the last. A last answer of 0 or 1 keeps the turn
   * going (`end` is still Busted), 2 stands within 21, 3 doubles down.
   */
  ghost predicate Prompted(lines: seq<Line>, start: nat, wealth: nat, bet: nat, hand: seq<Card>, deck: seq<Card>,
                           answers: seq<Read>, h: seq<Card>, d: seq<Card>, end: TurnEnd, next: nat)
  {
    && TookFromTop(hand, deck, h, d)
    && (forall j :: |hand| <= j < |h| ==> PrefixValue(h, j) <= 21)
    && Answered(lines, start, wealth, bet, answers)
    && next == ReadFrom(start, answers, |answers|)
    && |h| == |hand| + Hits(answers)
    && (|answers| == 0 ==> h == hand && end == Busted)
    && (|answers| > 0 ==> HandValue(hand) <= 21)
    && (|answers| > 0 ==> match answers[|answers| - 1].choice
          case 0 => HandValue(h) <= 21 && end == Busted
          case 1 => end == Busted
          case 2 => HandValue(h) <= 21 && end == Stood
          case 3 => wealth >= bet && end == DoubledDown
          case _ => false)
    && start <= next <= |lines|
  }

  /**
   * A finished player's turn `r` on `hand` dealt from `deck`, after the
   * answers read from `start`: the hand took one card off the top per 1 or
   * 3 answered and stayed within 21 until its last card; the last answer is
   * not 0 and no answer is read when the hand starts over 21; the turn
   * stood exactly on a final 2 (within 21), doubled down exactly on a final
   * 3 (only when the bet is affordable) and otherwise busted; the wealth
   * and the bet are as given.
   */
  ghost predicate TurnTaken(lines: seq<Line>, start: nat, wealth: nat, bet: nat, hand: seq<Card>, deck: seq<Card>,
                            answers: seq<Read>, r: Turn)
  {
    && r.Turn?
    && TookFromTop(hand, deck, r.hand, r.deck)
    && Answered(lines, start, wealth, bet, answers) && r.next == ReadFrom(start, answers, |answers|)
    && |r.hand| == |hand| + Hits(answers)
    && (|answers| > 0 ==> answers[|answers| - 1].choice != 0)
    && (|answers| == 0 <==> HandValue(hand) > 21)
    && (forall j :: |hand| <= j < |r.hand| ==> PrefixValue(r.hand, j) <= 21)
    && (r.end == Stood <==> |answers| > 0 && answers[|answers| - 1].choice == 2)
    && (r.end == DoubledDown <==> DoublesDown(answers))
    && (r.end == DoubledDown ==> wealth >= bet)
    && (r.end == Stood ==> HandValue(r.hand) <= 21)
    && (r.end == Busted ==> HandValue(r.hand) > 21)
    && r.wealth == wealth && r.bet == bet && start <= r.next <= |lines|
  }

  /** While the turn goes on the hand is still playing and may be prompted. */
  lemma StillPlaying(lines: seq<Line>, start: nat, wealth: nat, bet: nat, hand: seq<Card>, deck: seq<Card>,
                     answers: seq<Read>, h: seq<Card>, d: seq<Card>, next: nat)
    requires Prompted(lines, start, wealth, bet, hand, deck, answers, h, d, Busted, next) && HandValue(h) <= 21
    ensures Playing(lines, start, wealth, bet, hand, deck, answers)
    ensures answers != [] ==> answers[|answers| - 1].choice <= 1
  {
  }

  /** One more answer, and the hand it leaves, carry the turn on. */
  lemma PromptStep(lines: seq<Line>, start: nat, wealth: nat, bet: nat, hand: seq<Card>, deck: seq<Card>,
                   answers: seq<Read>, h: seq<Card>, d: seq<Card>, next: nat, a: Read, h': seq<Card>, d': seq<Card>, end: TurnEnd)
    requires Prompted(lines, start, wealth, bet, hand, deck, answers, h, d, Busted, next) && HandValue(h) <= 21
    requires Answered(lines, start, wealth, bet, answers + [a]) && Picks(lines, next, wealth, bet, a)
    requires Hits(answers + [a]) == Hits(answers) + (if a.choice in {1, 3} then 1 else 0)
    requires ReadFrom(start, answers + [a], |answers| + 1) == a.next
    requires TookFromTop(hand, deck, h', d') && |h'| == |h| + (if a.choice in {1, 3} then 1 else 0)
    requires forall j :: |hand| <= j < |h'| ==> PrefixValue(h', j) <= 21
    requires a.choice !in {1, 3} ==> h' == h && d' == d
    requires a.choice == 3 ==> wealth >= bet
    requires end == if a.choice == 3 then DoubledDown else if a.choice == 2 then Stood else Busted
    ensures Prompted(lines, start, wealth, bet, hand, deck, answers + [a], h', d', end, a.next)
  {
  }

  /** A turn that no longer goes on is finished. */
  lemma PromptsEnd(lines: seq<Line>, start: nat, wealth: nat, bet: nat, hand: seq<Card>, deck: seq<Card>,
                   answers: seq<Read>, h: seq<Card>, d: seq<Card>, end: TurnEnd, next: nat)
    requires Prompted(lines, start, wealth, bet, hand, deck, answers, h, d, end, next)
    requires !(HandValue(h) <= 21 && end == Busted)
    ensures TurnTaken(lines, start, wealth, bet, hand, deck, answers, Turn(end, h, d, wealth, bet, next))
  {
  }

  /**
   * The loop of the player's turn: prompt while the hand is at most 21,
   * until an answer of 2 or 3 ends it. The wealth and the bet are left to
   * the caller.
   */
  method Prompts(hand: seq<Card>, deck: seq<Card>, wealth: nat, bet: nat, lines: seq<Line>, start: nat)
    returns (r: Turn, ghost answers: seq<Read>)
    requires start <= |lines|
    ensures r.Turn? ==> TurnTaken(lines, start, wealth, bet, hand, deck, answers, r)
    ensures r.TurnFailed? ==> TurnStops(lines, start, wealth, bet, hand, deck, answers, r.failure)
  {
    var h, d, next := hand, deck, start;
    var end := Busted;
    answers := [];
    var v := CardsValue(h);
    while v <= 21 && end == Busted
      invariant Prompted(lines, start, wealth, bet, hand, deck, answers, h, d, end, next)
      invariant v == HandValue(h)
      decreases |lines| - next
    {
      StillPlaying(lines, start, wealth, bet, hand, deck, answers, h, d, next);
      var act := PlayerAct(hand, deck, h, d, wealth, bet, lines, next);
      if act.NoLine? {
        return TurnFailed(NoInput), answers;
      }
      AnsweredStep(lines, start, wealth, bet, answers, act.read);
      if act.NoCard? {
        RanOutOfCards(lines, start, wealth, bet, hand, deck, answers, act.read, h);
        return TurnFailed(DeckExhausted), answers + [act.read];
      }
      var after := Busted;
      if act.read.choice == 3 {
        after := DoubledDown;
      } else if act.read.choice == 2 {
        after := Stood;
      }
      PromptStep(lines, start, wealth, bet, hand, deck, answers, h, d, next, act.read, act.hand, act.deck, after);
      answers := answers + [act.read];
      h, d, next, end := act.hand, act.deck, act.read.next, after;
      v := CardsValue(h);
    }
    PromptsEnd(lines, start, wealth, bet, hand, deck, answers, h, d, end, next);
    r := Turn(end, h, d, wealth, bet, next);
  }

  // ---------------------------------------------------------------- the dealer's turn

  /** The dealer hits below 17, and only while not ahead of the player. */
  predicate DealerHits(dealerValue: nat, playerValue: nat)
    ensures DealerHits(dealerValue, playerValue) ==> dealerValue <= 16 && dealerValue <= playerValue
  {
    dealerValue < 17 && dealerValue <= playerValue
  }

  /**
   * The dealer on `dealer` would take every card of `deck` and still have
   * to hit: the hit rule holds at every value from the start to the hand
   * holding the whole deck.
   */
  predicate DealerRanOut(dealer: seq<Card>, deck: seq<Card>, target: nat)
  {
    forall j :: |dealer| <= j <= |dealer| + |deck| ==> DealerHits(PrefixValue(dealer + Drawn(deck, |deck|), j), target)
  }

  /** The state after the dealer's turn, or the deck ran dry while the dealer still had to hit. */
  datatype DealerEnd = DealerStands(hand: seq<Card>, deck: seq<Card>) | DealerOutOfCards

  /** Deal to the dealer while its value is at most 21 and the hit rule holds against `target`. */
  method DealerTurn(hand: seq<Card>, deck: seq<Card>, target: nat) returns (r: DealerEnd)
    ensures r.DealerStands? ==> TookFromTop(hand, deck, r.hand, r.deck)
    ensures r.DealerStands? ==> forall j :: |hand| <= j < |r.hand| ==> DealerHits(PrefixValue(r.hand, j), target)
    ensures r.DealerStands? ==> !DealerHits(HandValue(r.hand), target)
    ensures r.DealerOutOfCards? ==> DealerRanOut(hand, deck, target)
  {
    var h, d := hand, deck;
    var v := CardsValue(h);
    while v <= 21
      invariant TookFromTop(hand, deck, h, d)
      invariant forall j :: |hand| <= j < |h| ==> DealerHits(PrefixValue(h, j), target)
      invariant v == HandValue(h)
      decreases |d|
    {
      if v < 17 && v <= target {
        var dealt := Hit(hand, deck, h, d);
        if dealt.DeckEmpty? {
          assert h[..|h|] == h;
          return DealerOutOfCards;
        }
        h, d := dealt.to, dealt.from;
        v := CardsValue(h);
      } else {
        break;
      }
    }
    return DealerStands(h, d);
  }

  /** Every card the dealer took beyond the first two was taken under the hit rule, and it then stood. */
  predicate DealerFollowedRule(dealer: seq<Card>, playerValue: nat)
    requires |dealer| >= 2
  {
    && (forall j :: 2 <= j < |dealer| ==> DealerHits(PrefixValue(dealer, j), playerValue))
    && !DealerHits(HandValue(dealer), playerValue)
  }

  /** The dealer never hits at 17 or more, and it stands below 17 once it is ahead of the player. */
  lemma DealerStandRule(dealerValue: nat, playerValue: nat)
    ensures !DealerHits(dealerValue, playerValue) <==> dealerValue >= 17 || dealerValue > playerValue
  {
  }

  // ---------------------------------------------------------------- one round

  /** The cards a round deals from: the deck, or a fresh deck when too few cards remain. */
  function Shoe(deck: seq<Card>): multiset<Card>
  {
    if |deck| < RESHUFFLE_BELOW then multiset(FullDeck()) else multiset(deck)
  }

  /** How one pass of the session loop ends. */
  datatype RoundEnd =
    | BetRefused(next: nat)
    | Settled(outcome: Outcome, bet: nat, stake: nat, player: seq<Card>, dealer: seq<Card>,
              wealth: nat, deck: seq<Card>, next: nat)
    | Aborted(failure: Failure)

  /** Replace the deck by a new shuffled one when fewer than 26 cards remain. */
  method Refill(deck: seq<Card>, draw: nat -> nat) returns (shoe: seq<Card>)
    ensures |shoe| >= RESHUFFLE_BELOW && multiset(shoe) == Shoe(deck)
    ensures |deck| >= RESHUFFLE_BELOW ==> shoe == deck
    ensures |deck| < RESHUFFLE_BELOW ==> |shoe| == 52
  {
    shoe := deck;
    if |shoe| < RESHUFFLE_BELOW {
      shoe := CreateDeck();
      shoe := ShuffleDeck(shoe, draw);
    }
  }

  /** The two hands dealt and the cards left hold exactly the cards of the shoe. */
  lemma DealtFromShoe(shoe: seq<Card>)
    requires |shoe| >= 4
    ensures multiset(Drawn(shoe, 2)) + multiset(Drawn(shoe[..|shoe| - 2], 2)) + multiset(shoe[..|shoe| - 4]) == multiset(shoe)
  {
    var rest := shoe[..|shoe| - 2];
    DrawnSplit(shoe, 2);
    DrawnSplit(rest, 2);
    assert rest[..|rest| - 2] == shoe[..|shoe| - 4];
  }

  /** Deal two cards off the top to the player, then the next two to the dealer. */
  method InitialDeal(shoe: seq<Card>) returns (player: seq<Card>, dealer: seq<Card>, left: seq<Card>)
    requires |shoe| >= 4
    ensures player == Drawn(shoe, 2) && dealer == Drawn(shoe[..|shoe| - 2], 2) && left == shoe[..|shoe| - 4]
    ensures multiset(player) + multiset(dealer) + multiset(left) == multiset(shoe)
  {
    var first := DealCards([], shoe, 2);
    assert first.Dealt?;
    var second := DealCards([], first.from, 2);
    assert second.Dealt?;
    player, dealer, left := first.to, second.to, second.from;
    TwoHandsCount([], player, [], dealer, shoe, first.from, left);
    CutOfCut(shoe, first.from, left);
  }

  /**
   * What a round settled after the deal guarantees of its end `r`: the stake
   * is the bet or, doubled down, twice the bet; the player's hand is the two
   * cards dealt and then cards off the top of `deck`, the dealer's the two
   * cards dealt and then cards off the top of what the player left, and the
   * deck left is the rest; the outcome is the verdict on the final hands and
   * the wealth `wealth + bet - stake` is credited with its payout; the
   * player never drew on a hand above 21, and the dealer, when it played,
   * followed its rule.
   */
  ghost predicate PlayedOut(r: RoundEnd, player: seq<Card>, dealer: seq<Card>, deck: seq<Card>, wealth: nat, bet: nat)
  {
    && r.Settled?
    && wealth + bet <= U32_MAX
    && r.bet == bet && (r.stake == bet || (r.stake == 2 * bet && bet <= wealth))
    && |player| == 2 && |dealer| == 2 && 2 <= |r.player| <= 2 + |deck|
    && r.player == player + Drawn(deck, |r.player| - 2)
    && TookFromTop(dealer, deck[..|deck| - (|r.player| - 2)], r.dealer, r.deck)
    && r.outcome == Verdict(r.player, r.dealer)
    && r.wealth == Credit(wealth + bet - r.stake, Payout(r.outcome, r.stake))
    && (forall j :: 2 <= j < |r.player| ==> PrefixValue(r.player, j) <= 21)
    && (r.outcome == PlayerBust ==> r.dealer == dealer)
    && (!r.outcome.Natural() && r.outcome != PlayerBust ==> DealerFollowedRule(r.dealer, HandValue(r.player)))
  }

  /**
   * A played-out round keeps the dealt cards at the bottom of each hand,
   * and the two hands and the deck left hold exactly the cards of the two
   * dealt hands and `deck`, the deck left being a top-cut of `deck`.
   */
  lemma {:induction false} PlayedOutCards(r: RoundEnd, player: seq<Card>, dealer: seq<Card>, deck: seq<Card>, wealth: nat, bet: nat)
    requires PlayedOut(r, player, dealer, deck, wealth, bet)
    ensures r.player[..2] == player && r.dealer[..2] == dealer
    ensures multiset(r.player) + multiset(r.dealer) + multiset(r.deck) == multiset(player) + multiset(dealer) + multiset(deck)
    ensures |r.deck| <= |deck| && r.deck == deck[..|r.deck|]
  {
    var mid := deck[..|deck| - (|r.player| - 2)];
    assert TookFromTop(player, deck, r.player, mid);
    TopCuts(player, deck, r.player, mid, dealer, r.dealer, r.deck);
  }

  /**
   * Why a round on the two-card hands `player` and `dealer`, neither a
   * natural, could not be finished from `deck`: the player's turn failed
   * (TurnStops), or it ended within 21 on a 2 or a 3 and the dealer, given
   * every card left, would still have to hit.
   */
  ghost predicate PlayAborts(lines: seq<Line>, start: nat, wealth: nat, bet: nat,
                             player: seq<Card>, dealer: seq<Card>, deck: seq<Card>, answers: seq<Read>, f: Failure)
  {
    && HandValue(player) != 21 && HandValue(dealer) != 21
    && (|| TurnStops(lines, start, wealth, bet, player, deck, answers, f)
        || (&& f == DeckExhausted
            && Answered(lines, start, wealth, bet, answers)
            && answers != [] && answers[|answers| - 1].choice in {2, 3}
            && Hits(answers) <= |deck|
            && var hand := player + Drawn(deck, Hits(answers));
               HandValue(hand) <= 21 && DealerRanOut(dealer, deck[..|deck| - Hits(answers)], HandValue(hand))))
  }

  /**
   * The round played on the two-card hands `player` and `dealer` dealt from
   * `deck`, with `wealth` left after the bet `bet`: a settled round is
   * PlayedOut; a natural settles at once with the dealt hands and the bet,
   * reading no line; otherwise the player's cards and stake follow the
   * answers read from `start`; an aborted round is explained by PlayAborts.
   */
  ghost predicate HandsPlayed(lines: seq<Line>, start: nat, wealth: nat, bet: nat,
                              player: seq<Card>, dealer: seq<Card>, deck: seq<Card>, answers: seq<Read>, r: RoundEnd)
  {
    && !r.BetRefused?
    && (r.Settled? ==> PlayedOut(r, player, dealer, deck, wealth, bet) && start <= r.next <= |lines|)
    && (r.Settled? && r.outcome.Natural() ==>
          r.player == player && r.dealer == dealer && r.stake == bet && r.next == start && answers == [])
    && (r.Settled? && !r.outcome.Natural() ==>
          AsAnswered(lines, start, wealth, bet, answers, |r.player| - 2, HandValue(r.player), r.stake, r.next) && |answers| > 0)
    && (r.Aborted? ==> PlayAborts(lines, start, wealth, bet, player, dealer, deck, answers, r.failure))
  }

  /**
   * The rest of a round without naturals: the player's turn; a bust loses at
   * once; otherwise the dealer's turn and the comparison. `wealth` is what is
   * left after the bet was debited; `answers` are the player's answers.
   */
  method PlayTurns(player: seq<Card>, dealer: seq<Card>, deck: seq<Card>, wealth: nat, bet: nat,
                   lines: seq<Line>, start: nat) returns (r: RoundEnd, ghost answers: seq<Read>)
    requires |player| == 2 && |dealer| == 2
    requires HandValue(player) != 21 && HandValue(dealer) != 21
    requires wealth + bet <= U32_MAX && start <= |lines|
    ensures !r.BetRefused?
    ensures r.Settled? ==> PlayedOut(r, player, dealer, deck, wealth, bet) && !r.outcome.Natural()
    ensures r.Settled? ==> AsAnswered(lines, start, wealth, bet, answers, |r.player| - 2, HandValue(r.player), r.stake, r.next)
    ensures r.Settled? ==> |answers| > 0 && start <= r.next <= |lines|
    ensures r.Aborted? ==> PlayAborts(lines, start, wealth, bet, player, dealer, deck, answers, r.failure)
  {
    var turn;
    turn, answers := PlayerTurn(player, deck, wealth, bet, lines, start);
    if turn.TurnFailed? {
      return Aborted(turn.failure), answers;
    }
    assert player == [player[0], player[1]];
    TwoCardsFit(player[0], player[1]);
    ghost var cards := |turn.hand| - |player|;
    assert AsAnswered(lines, start, wealth, bet, answers, cards, HandValue(turn.hand), turn.bet, turn.next);
    r := Showdown(player, dealer, deck, wealth, bet, turn);
    assert r.Settled? ==> |r.player| - 2 == cards;
    if r.Aborted? {
      assert turn.end != Busted;
      assert turn.hand == player + Drawn(deck, Hits(answers)) && turn.deck == deck[..|deck| - Hits(answers)];
    }
  }

  /**
   * A bust after the player's turn loses at once; otherwise the dealer's
   * turn and the comparison decide. `turn` is the player's turn on
   * `player`, dealt from `deck`.
   */
  method Showdown(player: seq<Card>, dealer: seq<Card>, deck: seq<Card>, wealth: nat, bet: nat, turn: Turn)
    returns (r: RoundEnd)
    requires |player| == 2 && |dealer| == 2
    requires HandValue(player) != 21 && HandValue(dealer) != 21
    requires turn.Turn? && TookFromTop(player, deck, turn.hand, turn.deck) && wealth + bet <= U32_MAX
    requires turn.wealth + turn.bet == wealth + bet && (turn.bet == bet || (turn.bet == 2 * bet && bet <= wealth))
    requires forall j :: 2 <= j < |turn.hand| ==> PrefixValue(turn.hand, j) <= 21
    ensures !r.BetRefused?
    ensures r.Settled? ==> r.player == turn.hand && r.stake == turn.bet && r.next == turn.next
    ensures r.Settled? ==> TookFromTop(dealer, turn.deck, r.dealer, r.deck)
    ensures r.Settled? ==> PlayedOut(r, player, dealer, deck, wealth, bet) && !r.outcome.Natural()
    ensures r.Aborted? ==>
      r.failure == DeckExhausted && HandValue(turn.hand) <= 21 && DealerRanOut(dealer, turn.deck, HandValue(turn.hand))
  {
    var pv := CardsValue(turn.hand);
    if pv > 21 {
      assert turn.hand[..2] == player && dealer[..2] == dealer && turn.deck[..|turn.deck|] == turn.deck;
      r := Settled(PlayerBust, bet, turn.bet, turn.hand, dealer, turn.wealth, turn.deck, turn.next);
    } else {
      r := DealerPhase(turn.hand, dealer, turn.deck, turn.wealth, bet, turn.bet, turn.next);
    }
    if r.Settled? {
      TurnsPlayOut(player, dealer, deck, wealth, bet, turn, r);
    }
  }

  /**
   * The round `r` settled after the player's turn `turn` on `player`, dealt
   * from `deck`, and the dealer's turn from the deck the player left, is
   * played out.
   */
  lemma {:induction false} TurnsPlayOut(player: seq<Card>, dealer: seq<Card>, deck: seq<Card>, wealth: nat, bet: nat, turn: Turn, r: RoundEnd)
    requires |player| == 2 && |dealer| == 2
    requires turn.Turn? && TookFromTop(player, deck, turn.hand, turn.deck) && wealth + bet <= U32_MAX
    requires turn.wealth + turn.bet == wealth + bet && (turn.bet == bet || (turn.bet == 2 * bet && bet <= wealth))
    requires forall j :: 2 <= j < |turn.hand| ==> PrefixValue(turn.hand, j) <= 21
    requires r.Settled? && r.bet == bet && r.player == turn.hand && r.stake == turn.bet
    requires TookFromTop(dealer, turn.deck, r.dealer, r.deck)
    requires r.outcome == Verdict(r.player, r.dealer) && r.wealth == Credit(turn.wealth, Payout(r.outcome, r.stake))
    requires r.outcome == PlayerBust ==> r.dealer == dealer
    requires !r.outcome.Natural() && r.outcome != PlayerBust ==> DealerFollowedRule(r.dealer, HandValue(r.player))
    ensures PlayedOut(r, player, dealer, deck, wealth, bet)
  {
    assert turn.deck == deck[..|deck| - (|r.player| - 2)];
    assert wealth + bet - r.stake == turn.wealth;
    assert r.Settled? && wealth + bet <= U32_MAX;
    assert r.bet == bet && (r.stake == bet || (r.stake == 2 * bet && bet <= wealth));
    assert |player| == 2 && |dealer| == 2 && 2 <= |r.player| <= 2 + |deck|;
    assert r.player == player + Drawn(deck, |r.player| - 2);
    assert TookFromTop(dealer, deck[..|deck| - (|r.player| - 2)], r.dealer, r.deck);
    assert r.outcome == Verdict(r.player, r.dealer);
    assert r.wealth == Credit(wealth + bet - r.stake, Payout(r.outcome, r.stake));
    assert (forall j :: 2 <= j < |r.player| ==> PrefixValue(r.player, j) <= 21);
    assert (r.outcome == PlayerBust ==> r.dealer == dealer);
    assert (!r.outcome.Natural() && r.outcome != PlayerBust ==> DealerFollowedRule(r.dealer, HandValue(r.player)));
  }

  /**
   * The dealer's turn after the player stood at `player`'s value, then the
   * comparison: a dealer bust pays double, equal values refund, the closer
   * hand wins. `wealth` is what the player holds with the stake already paid.
   */
  method DealerPhase(player: seq<Card>, dealer: seq<Card>, deck: seq<Card>, wealth: nat, bet: nat, stake: nat, next: nat)
    returns (r: RoundEnd)
    requires |player| >= 2 && |dealer| == 2
    requires HandValue(player[..2]) != 21 && HandValue(dealer) != 21
    requires HandValue(player) <= 21 && wealth <= U32_MAX
    ensures r.Settled? || r == Aborted(DeckExhausted)
    ensures r.Settled? ==> r.bet == bet && r.stake == stake && r.player == player && r.next == next
    ensures r.Settled? ==> |r.dealer| >= 2 && r.dealer[..2] == dealer && TookFromTop(dealer, deck, r.dealer, r.deck)
    ensures r.Settled? ==> r.outcome == Verdict(r.player, r.dealer) && !r.outcome.Natural() && r.outcome != PlayerBust
    ensures r.Settled? ==> r.wealth == Credit(wealth, Payout(r.outcome, stake))
    ensures r.Settled? ==> multiset(r.dealer) + multiset(r.deck) == multiset(dealer) + multiset(deck)
    ensures r.Settled? ==> |r.deck| <= |deck| && r.deck == deck[..|r.deck|]
    ensures r.Settled? ==> DealerFollowedRule(r.dealer, HandValue(player))
    ensures r.Aborted? ==> DealerRanOut(dealer, deck, HandValue(player))
  {
    var pv := CardsValue(player);
    var house := DealerTurn(dealer, deck, pv);
    if house.DealerOutOfCards? {
      return Aborted(DeckExhausted);
    }
    assert house.hand[..2] == dealer;
    TookFromTopCounts(dealer, deck, house.hand, house.deck);
    var dv := CardsValue(house.hand);
    if dv > 21 {
      return Settled(DealerBust, bet, stake, player, house.hand, Credit(wealth, 2 * stake), house.deck, next);
    }
    if pv == dv {
      return Settled(SameValue, bet, stake, player, house.hand, Credit(wealth, stake), house.deck, next);
    }
    if pv > dv {
      return Settled(PlayerCloser, bet, stake, player, house.hand, Credit(wealth, 2 * stake), house.deck, next);
    }
    return Settled(DealerCloser, bet, stake, player, house.hand, wealth, house.deck, next);
  }

  /**
   * A pass of the session loop from line `start`, with `wealth` and `deck`:
   * with no line left it aborts with NoInput; a line that is no bet is
   * refused and the next pass reads on after it (in both cases nothing
   * more is read and the shoe is the deck as it is); a placed bet is debited,
   * and the hands are dealt from the shoe `shoe` (the deck, or a fresh
   * shuffled deck when fewer than 26 cards remain) and played from the
   * line after the bet, on the answers `answers` (HandsPlayed).
   */
  ghost predicate RoundPlayed(lines: seq<Line>, wealth: nat, deck: seq<Card>, start: nat,
                              shoe: seq<Card>, answers: seq<Read>, r: RoundEnd)
    requires wealth <= U32_MAX
  {
    if start >= |lines| then r == Aborted(NoInput) && answers == [] && shoe == deck
    else match PlaceBet(wealth, lines[start])
      case Placed(bet, left) =>
        && |shoe| >= RESHUFFLE_BELOW && multiset(shoe) == Shoe(deck)
        && (|deck| >= RESHUFFLE_BELOW ==> shoe == deck)
        && HandsPlayed(lines, start + 1, left, bet, Drawn(shoe, 2), Drawn(shoe[..|shoe| - 2], 2), shoe[..|shoe| - 4], answers, r)
      case _ => r == BetRefused(start + 1) && answers == [] && shoe == deck
  }

  /**
   * A round is played in one way only: from the same lines, wealth, deck,
   * first line and shoe, the answers read and the round's end are the same.
   */
  lemma {:induction false} RoundPlayedUnique(lines: seq<Line>, wealth: nat, deck: seq<Card>, start: nat, shoe: seq<Card>,
                          a1: seq<Read>, r1: RoundEnd, a2: seq<Read>, r2: RoundEnd)
    requires wealth <= U32_MAX
    requires RoundPlayed(lines, wealth, deck, start, shoe, a1, r1) && RoundPlayed(lines, wealth, deck, start, shoe, a2, r2)
    ensures a1 == a2 && r1 == r2
  {
    if start < |lines| && PlaceBet(wealth, lines[start]).Placed? {
      var placed := PlaceBet(wealth, lines[start]);
      HandsPlayedUnique(lines, start + 1, placed.wealth, placed.bet, Drawn(shoe, 2), Drawn(shoe[..|shoe| - 2], 2), shoe[..|shoe| - 4], a1, r1, a2, r2);
    }
  }

  /**
   * A settled pass, in the terms of the pass: the bet is the one placed on
   * its first line; the stake is the bet or, affordably, twice it; the
   * outcome is the verdict on the final hands and the new wealth is the
   * wealth less the stake, credited with the payout; the hands and the
   * deck left hold exactly the shoe's cards, and a kept deck loses only
   * cards from its top.
   */
  lemma RoundSettles(lines: seq<Line>, wealth: nat, deck: seq<Card>, start: nat,
                     shoe: seq<Card>, answers: seq<Read>, r: RoundEnd)
    requires wealth <= U32_MAX && RoundPlayed(lines, wealth, deck, start, shoe, answers, r) && r.Settled?
    ensures start < |lines| && PlaceBet(wealth, lines[start]).Placed? && PlaceBet(wealth, lines[start]).bet == r.bet
    ensures r.stake == r.bet || (r.stake == 2 * r.bet && r.stake <= wealth)
    ensures |r.player| >= 2 && |r.dealer| >= 2 && r.outcome == Verdict(r.player, r.dealer)
    ensures r.wealth == Credit(wealth - r.stake, Payout(r.outcome, r.stake))
    ensures multiset(r.player) + multiset(r.dealer) + multiset(r.deck) == Shoe(deck)
    ensures |deck| >= RESHUFFLE_BELOW ==> |r.deck| <= |deck| && r.deck == deck[..|r.deck|]
    ensures start < r.next <= |lines|
  {
    var placed := PlaceBet(wealth, lines[start]);
    PlayedOutCards(r, Drawn(shoe, 2), Drawn(shoe[..|shoe| - 2], 2), shoe[..|shoe| - 4], placed.wealth, placed.bet);
    DealtFromShoe(shoe);
  }

  /**
   * One pass of the session loop after the save: read a bet, refresh the
   * deck if it is low, deal two cards each, settle naturals, then play the
   * player's and the dealer's turns and settle. `shoe` is the deck dealt
   * from and `answers` the player's answers.
   */
  method PlayRound(wealth: nat, deck: seq<Card>, lines: seq<Line>, start: nat, draw: nat -> nat)
    returns (r: RoundEnd, ghost answers: seq<Read>, ghost shoe: seq<Card>)
    requires wealth <= U32_MAX && start <= |lines|
    ensures start == |lines| ==> r == Aborted(NoInput)
    ensures r.BetRefused? <==> start < |lines| && !PlaceBet(wealth, lines[start]).Placed?
    ensures r.BetRefused? ==> r.next == start + 1
    ensures RoundPlayed(lines, wealth, deck, start, shoe, answers, r)
  {
    answers, shoe := [], deck;
    if start == |lines| {
      return Aborted(NoInput), answers, shoe;
    }
    var placed := PlaceBet(wealth, lines[start]);
    if !placed.Placed? {
      return BetRefused(start + 1), answers, shoe;
    }
    r, answers, shoe := DealAndPlay(deck, placed.wealth, placed.bet, lines, start + 1, draw);
  }

  /**
   * The pass after a bet was placed: refresh the deck if it is low, deal two
   * cards each, then play the hands. `wealth` is what is left after the bet.
   */
  method DealAndPlay(deck: seq<Card>, wealth: nat, bet: nat, lines: seq<Line>, start: nat, draw: nat -> nat)
    returns (r: RoundEnd, ghost answers: seq<Read>, ghost shoe: seq<Card>)
    requires wealth + bet <= U32_MAX && start <= |lines|
    ensures !r.BetRefused? && (r.Settled? ==> r.bet == bet && start <= r.next <= |lines|)
    ensures |shoe| >= RESHUFFLE_BELOW && multiset(shoe) == Shoe(deck)
    ensures |deck| >= RESHUFFLE_BELOW ==> shoe == deck
    ensures HandsPlayed(lines, start, wealth, bet, Drawn(shoe, 2), Drawn(shoe[..|shoe| - 2], 2), shoe[..|shoe| - 4], answers, r)
  {
    var refilled := Refill(deck, draw);
    shoe := refilled;
    var playerHand, dealerHand, left := InitialDeal(refilled);
    r, answers := PlayHands(playerHand, dealerHand, left, wealth, bet, lines, start);
  }

  /**
   * Play out the hands just dealt: naturals settle at once (a shared 21
   * refunds, the player's pays double, the dealer's takes the bet);
   * otherwise the player's and the dealer's turns decide, on the answers
   * `answers`.
   */
  method PlayHands(player: seq<Card>, dealer: seq<Card>, deck: seq<Card>, wealth: nat, bet: nat,
                   lines: seq<Line>, start: nat) returns (r: RoundEnd, ghost answers: seq<Read>)
    requires |player| == 2 && |dealer| == 2
    requires wealth + bet <= U32_MAX && start <= |lines|
    ensures HandsPlayed(lines, start, wealth, bet, player, dealer, deck, answers, r)
    ensures HandValue(player) == 21 || HandValue(dealer) == 21 ==> r.Settled?
  {
    assert player[..2] == player && dealer[..2] == dealer;
    var pv := CardsValue(player);
    var dv := CardsValue(dealer);
    answers := [];
    if pv == 21 && dv == 21 {
      return Settled(BothBlackjack, bet, bet, player, dealer, Credit(wealth, bet), deck, start), answers;
    }
    if pv == 21 {
      return Settled(PlayerBlackjack, bet, bet, player, dealer, Credit(wealth, 2 * bet), deck, start), answers;
    }
    if dv == 21 {
      return Settled(DealerBlackjack, bet, bet, player, dealer, wealth, deck, start), answers;
    }
    r, answers := PlayTurns(player, dealer, deck, wealth, bet, lines, start);
  }

  // ---------------------------------------------------------------- a round is determined by its inputs

  /** A prompt picks one answer only: the first line from where it starts that it accepts. */
  lemma {:induction false} PicksUnique(lines: seq<Line>, from: nat, wealth: nat, bet: nat, x: Read, y: Read)
    requires Picks(lines, from, wealth, bet, x) && Picks(lines, from, wealth, bet, y)
    ensures x == y
  {
  }

  /** Of two runs of answers picked in turn from the same line, the shorter is the start of the longer. */
  lemma {:induction false} AnsweredPrefix(lines: seq<Line>, start: nat, wealth: nat, bet: nat, a: seq<Read>, b: seq<Read>)
    requires Answered(lines, start, wealth, bet, a) && Answered(lines, start, wealth, bet, b) && |a| <= |b|
    ensures a == b[..|a|]
    decreases |b|
  {
    if |a| < |b| {
      var prior := b[..|b| - 1];
      AnsweredPrefix(lines, start, wealth, bet, a, prior);
      assert prior[..|a|] == b[..|a|];
    } else if a != [] {
      var pa, pb := a[..|a| - 1], b[..|b| - 1];
      AnsweredPrefix(lines, start, wealth, bet, pa, pb);
      assert pb[..|pa|] == pb;
      PicksUnique(lines, ReadFrom(start, pa, |pa|), wealth, bet, a[|a| - 1], b[|b| - 1]);
      assert a == pa + [a[|a| - 1]] && b == pb + [b[|b| - 1]];
    }
  }

  /**
   * In a run of answers picked in turn, the answer after the first i was
   * picked where those stopped, and follows a 0 or a 1.
   */
  lemma {:induction false} AnsweredAt(lines: seq<Line>, start: nat, wealth: nat, bet: nat, a: seq<Read>, i: nat)
    requires Answered(lines, start, wealth, bet, a) && i < |a|
    ensures Picks(lines, ReadFrom(start, a[..i], i), wealth, bet, a[i])
    ensures i > 0 ==> a[i - 1].choice <= 1
    decreases |a|
  {
    var prior := a[..|a| - 1];
    if i < |a| - 1 {
      AnsweredAt(lines, start, wealth, bet, prior, i);
      assert prior[..i] == a[..i] && prior[i] == a[i];
      assert i > 0 ==> prior[i - 1] == a[i - 1];
    } else {
      assert prior == a[..i];
    }
  }

  /** Fewer answers deal no more cards. */
  lemma {:induction false} HitsPrefix(a: seq<Read>, i: nat)
    requires i <= |a|
    ensures Hits(a[..i]) <= Hits(a)
    decreases |a|
  {
    if i < |a| {
      HitsPrefix(a[..|a| - 1], i);
      assert a[..|a| - 1][..i] == a[..i];
    } else {
      assert a[..i] == a;
    }
  }

  /**
   * Answers whose cards the deck held and that leave the hand at most 21
   * left it at most 21 after each shorter run of them too.
   */
  lemma {:induction false} StayedIn(player: seq<Card>, deck: seq<Card>, answers: seq<Read>, i: nat)
    requires i <= |answers| && Hits(answers) <= |deck|
    requires HandValue(player + Drawn(deck, Hits(answers))) <= 21
    ensures Hits(answers[..i]) <= |deck| && HandValue(player + Drawn(deck, Hits(answers[..i]))) <= 21
  {
    HitsPrefix(answers, i);
    var m, n := Hits(answers[..i]), Hits(answers);
    DrawnPrefix(player, deck, m, n);
    if HandValue(player + Drawn(deck, m)) > 21 {
      BustStays(player + Drawn(deck, n), |player| + m);
    }
  }

  /** A round without naturals reads answers picked in turn. */
  lemma {:induction false} HandsPlayedAnswered(lines: seq<Line>, start: nat, wealth: nat, bet: nat,
                            player: seq<Card>, dealer: seq<Card>, deck: seq<Card>, answers: seq<Read>, r: RoundEnd)
    requires HandsPlayed(lines, start, wealth, bet, player, dealer, deck, answers, r)
    requires |player| == 2 && |dealer| == 2 && HandValue(player) != 21 && HandValue(dealer) != 21
    ensures Answered(lines, start, wealth, bet, answers)
  {
    if r.Settled? {
      PlayedOutCards(r, player, dealer, deck, wealth, bet);
    }
  }

  /**
   * A hand `h` that took a card off the top of `deck` per answer that asks
   * for one, stayed within 21 at every card, and is within 21 unless the
   * last answer took a card, was within 21 after every run of answers short
   * of the last.
   */
  lemma {:induction false} HandBeforeLast(player: seq<Card>, deck: seq<Card>, h: seq<Card>, answers: seq<Read>, i: nat)
    requires Hits(answers) <= |deck| && h == player + Drawn(deck, Hits(answers))
    requires forall j :: |player| <= j < |h| ==> PrefixValue(h, j) <= 21
    requires i < |answers| && (answers[|answers| - 1].choice !in {1, 3} ==> HandValue(h) <= 21)
    ensures Hits(answers[..i]) <= |deck| && HandValue(player + Drawn(deck, Hits(answers[..i]))) <= 21
  {
    var prior := answers[..|answers| - 1];
    assert prior[..i] == answers[..i];
    HitsPrefix(prior, i);
    var k, n := Hits(answers[..i]), Hits(answers);
    DrawnPrefix(player, deck, k, n);
    if |player| + k < |h| {
      assert PrefixValue(h, |player| + k) <= 21;
      PrefixValueIs(h, |player| + k);
    }
  }

  /**
   * In a round without naturals, before its last answer the player's hand
   * had taken no more cards than the deck held and was at most 21, however
   * the round ended.
   */
  lemma {:induction false} InBeforeLast(lines: seq<Line>, start: nat, wealth: nat, bet: nat,
                     player: seq<Card>, dealer: seq<Card>, deck: seq<Card>, answers: seq<Read>, r: RoundEnd, i: nat)
    requires HandsPlayed(lines, start, wealth, bet, player, dealer, deck, answers, r)
    requires |player| == 2 && |dealer| == 2 && HandValue(player) != 21 && HandValue(dealer) != 21 && i < |answers|
    ensures Hits(answers[..i]) <= |deck| && HandValue(player + Drawn(deck, Hits(answers[..i]))) <= 21
  {
    if r.Settled? {
      assert r.player[..2] == player;
      AnsweredChoices(lines, start, wealth, bet, answers);
      HandBeforeLast(player, deck, r.player, answers, i);
    } else if r.failure == NoInput {
      StayedIn(player, deck, answers, i);
    } else if TurnStops(lines, start, wealth, bet, player, deck, answers, r.failure) {
      var prior := answers[..|answers| - 1];
      assert prior[..i] == answers[..i];
      StayedIn(player, deck, prior, i);
    } else {
      StayedIn(player, deck, answers, i);
    }
  }

  /**
   * The player's turn of a round without naturals is over after its
   * answers: should the prompt pick one more answer, the last answer stood
   * or doubled down, or more cards were asked for than the deck held, or
   * the hand was over 21.
   */
  lemma {:induction false} TurnOver(lines: seq<Line>, start: nat, wealth: nat, bet: nat, player: seq<Card>, dealer: seq<Card>,
                                    deck: seq<Card>, answers: seq<Read>, r: RoundEnd, x: Read)
    requires |player| == 2 && |dealer| == 2 && HandValue(player) != 21 && HandValue(dealer) != 21
    requires HandsPlayed(lines, start, wealth, bet, player, dealer, deck, answers, r)
    requires Picks(lines, ReadFrom(start, answers, |answers|), wealth, bet, x)
    ensures || (answers != [] && answers[|answers| - 1].choice >= 2)
            || Hits(answers) > |deck|
            || HandValue(player + Drawn(deck, Hits(answers))) > 21
  {
    if r.Settled? {
      assert r.player[..2] == player;
    }
  }

  /** In a round without naturals one run of answers cannot run on beyond another. */
  lemma {:induction false} NoLongerTurn(lines: seq<Line>, start: nat, wealth: nat, bet: nat, player: seq<Card>, dealer: seq<Card>, deck: seq<Card>,
                     a1: seq<Read>, r1: RoundEnd, a2: seq<Read>, r2: RoundEnd)
    requires |player| == 2 && |dealer| == 2 && HandValue(player) != 21 && HandValue(dealer) != 21
    requires HandsPlayed(lines, start, wealth, bet, player, dealer, deck, a1, r1)
    requires HandsPlayed(lines, start, wealth, bet, player, dealer, deck, a2, r2)
    ensures |a1| >= |a2|
  {
    if |a1| < |a2| {
      HandsPlayedAnswered(lines, start, wealth, bet, player, dealer, deck, a1, r1);
      HandsPlayedAnswered(lines, start, wealth, bet, player, dealer, deck, a2, r2);
      AnsweredPrefix(lines, start, wealth, bet, a1, a2);
      AnsweredAt(lines, start, wealth, bet, a2, |a1|);
      InBeforeLast(lines, start, wealth, bet, player, dealer, deck, a2, r2, |a1|);
      TurnOver(lines, start, wealth, bet, player, dealer, deck, a1, r1, a2[|a1|]);
    }
  }

  /** The dealer who follows its rule from the same two cards on the same deck ends with the same hand. */
  lemma {:induction false} DealerUnique(dealer: seq<Card>, deck: seq<Card>, d1: seq<Card>, x1: seq<Card>, d2: seq<Card>, x2: seq<Card>, target: nat)
    requires |dealer| == 2 && TookFromTop(dealer, deck, d1, x1) && TookFromTop(dealer, deck, d2, x2)
    requires DealerFollowedRule(d1, target) && DealerFollowedRule(d2, target)
    ensures d1 == d2 && x1 == x2
  {
    if |d1| < |d2| {
      DrawnPrefix(dealer, deck, |d1| - 2, |d2| - 2);
      PrefixValueIs(d2, |d1|);
    } else if |d2| < |d1| {
      DrawnPrefix(dealer, deck, |d2| - 2, |d1| - 2);
      PrefixValueIs(d1, |d2|);
    } else {
      var n := |d1| - 2;
      assert d1 == dealer + Drawn(deck, n) == d2;
    }
  }

  /** In two played-out ends of a round without naturals where the player took as many cards, the dealer took as many too. */
  lemma {:induction false} DealerAlike(r1: RoundEnd, r2: RoundEnd, player: seq<Card>, dealer: seq<Card>, deck: seq<Card>, wealth: nat, bet: nat)
    requires PlayedOut(r1, player, dealer, deck, wealth, bet) && PlayedOut(r2, player, dealer, deck, wealth, bet)
    requires !r1.outcome.Natural() && !r2.outcome.Natural() && r1.player == r2.player
    ensures r1.dealer == r2.dealer && r1.deck == r2.deck
  {
    var rest := deck[..|deck| - (|r1.player| - 2)];
    if HandValue(r1.player) <= 21 {
      DealerUnique(dealer, rest, r1.dealer, r1.deck, r2.dealer, r2.deck, HandValue(r1.player));
    }
  }

  /** Two played-out ends of a round without naturals where the player took as many cards, for the same stake, are the same. */
  lemma {:induction false} PlayedOutAlike(r1: RoundEnd, r2: RoundEnd, player: seq<Card>, dealer: seq<Card>, deck: seq<Card>, wealth: nat, bet: nat)
    requires PlayedOut(r1, player, dealer, deck, wealth, bet) && PlayedOut(r2, player, dealer, deck, wealth, bet)
    requires HandValue(player) != 21 && HandValue(dealer) != 21
    requires |r1.player| == |r2.player| && r1.stake == r2.stake && r1.next == r2.next
    ensures r1 == r2
  {
    assert r1.player[..2] == player && r2.player[..2] == player;
    DealerAlike(r1, r2, player, dealer, deck, wealth, bet);
  }

  /** Two settled ends of the same round without naturals, after the same answers, are the same. */
  lemma {:induction false} SettledAlike(lines: seq<Line>, start: nat, wealth: nat, bet: nat, player: seq<Card>, dealer: seq<Card>, deck: seq<Card>,
                     answers: seq<Read>, r1: RoundEnd, r2: RoundEnd)
    requires |player| == 2 && |dealer| == 2 && HandValue(player) != 21 && HandValue(dealer) != 21
    requires HandsPlayed(lines, start, wealth, bet, player, dealer, deck, answers, r1) && r1.Settled?
    requires HandsPlayed(lines, start, wealth, bet, player, dealer, deck, answers, r2) && r2.Settled?
    ensures r1 == r2
  {
    assert r1.player[..2] == player && r2.player[..2] == player;
    PlayedOutAlike(r1, r2, player, dealer, deck, wealth, bet);
  }

  /** A round without naturals cannot both settle and abort after the same answers. */
  lemma {:induction false} SettledNotAborted(lines: seq<Line>, start: nat, wealth: nat, bet: nat, player: seq<Card>, dealer: seq<Card>, deck: seq<Card>,
                          answers: seq<Read>, r1: RoundEnd, r2: RoundEnd)
    requires |player| == 2 && |dealer| == 2 && HandValue(player) != 21 && HandValue(dealer) != 21
    requires HandsPlayed(lines, start, wealth, bet, player, dealer, deck, answers, r1) && r1.Settled?
    requires HandsPlayed(lines, start, wealth, bet, player, dealer, deck, answers, r2)
    ensures !r2.Aborted?
  {
    assert r1.player[..2] == player;
    if r2.Aborted? && r2.failure == DeckExhausted && !TurnStops(lines, start, wealth, bet, player, deck, answers, r2.failure) {
      DealerRanOutHits(dealer, deck[..|deck| - Hits(answers)], r1.dealer, r1.deck, HandValue(r1.player));
    }
  }

  /** A dealer who would take the whole deck and still hit hits at every hand it could take off it. */
  lemma {:induction false} DealerRanOutHits(dealer: seq<Card>, deck: seq<Card>, d: seq<Card>, x: seq<Card>, target: nat)
    requires TookFromTop(dealer, deck, d, x) && DealerRanOut(dealer, deck, target)
    ensures DealerHits(HandValue(d), target)
  {
    DrawnPrefix(dealer, deck, |d| - |dealer|, |deck|);
    PrefixValueIs(dealer + Drawn(deck, |deck|), |d|);
  }

  /** A round without naturals cannot abort for two reasons after the same answers. */
  lemma {:induction false} AbortsAlike(lines: seq<Line>, start: nat, wealth: nat, bet: nat, player: seq<Card>, dealer: seq<Card>, deck: seq<Card>,
                    answers: seq<Read>, r1: RoundEnd, r2: RoundEnd)
    requires |player| == 2 && |dealer| == 2 && HandValue(player) != 21 && HandValue(dealer) != 21
    requires HandsPlayed(lines, start, wealth, bet, player, dealer, deck, answers, r1) && r1.Aborted?
    requires HandsPlayed(lines, start, wealth, bet, player, dealer, deck, answers, r2) && r2.Aborted?
    ensures r1 == r2
  {
  }

  /** A round dealt with a natural settles at once, with the dealt hands, the bet and no answer. */
  lemma {:induction false} NaturalRound(lines: seq<Line>, start: nat, wealth: nat, bet: nat, player: seq<Card>, dealer: seq<Card>, deck: seq<Card>,
                     answers: seq<Read>, r: RoundEnd)
    requires |player| == 2 && |dealer| == 2 && (HandValue(player) == 21 || HandValue(dealer) == 21)
    requires HandsPlayed(lines, start, wealth, bet, player, dealer, deck, answers, r)
    ensures answers == []
    ensures r == Settled(Verdict(player, dealer), bet, bet, player, dealer, Credit(wealth, Payout(Verdict(player, dealer), bet)), deck, start)
  {
    PlayedOutCards(r, player, dealer, deck, wealth, bet);
    assert deck[..|deck|] == deck;
  }

  /**
   * The hands of a round are played in one way only: from the same lines,
   * wealth, bet, dealt hands and deck, the answers read and the round's end
   * are the same.
   */
  lemma {:induction false} HandsPlayedUnique(lines: seq<Line>, start: nat, wealth: nat, bet: nat, player: seq<Card>, dealer: seq<Card>, deck: seq<Card>,
                          a1: seq<Read>, r1: RoundEnd, a2: seq<Read>, r2: RoundEnd)
    requires |player| == 2 && |dealer| == 2
    requires HandsPlayed(lines, start, wealth, bet, player, dealer, deck, a1, r1)
    requires HandsPlayed(lines, start, wealth, bet, player, dealer, deck, a2, r2)
    ensures a1 == a2 && r1 == r2
  {
    if HandValue(player) == 21 || HandValue(dealer) == 21 {
      NaturalRound(lines, start, wealth, bet, player, dealer, deck, a1, r1);
      NaturalRound(lines, start, wealth, bet, player, dealer, deck, a2, r2);
    } else {
      NoLongerTurn(lines, start, wealth, bet, player, dealer, deck, a1, r1, a2, r2);
      NoLongerTurn(lines, start, wealth, bet, player, dealer, deck, a2, r2, a1, r1);
      HandsPlayedAnswered(lines, start, wealth, bet, player, dealer, deck, a1, r1);
      HandsPlayedAnswered(lines, start, wealth, bet, player, dealer, deck, a2, r2);
      AnsweredPrefix(lines, start, wealth, bet, a1, a2);
      assert a2[..|a1|] == a2;
      if r1.Settled? && r2.Settled? {
        SettledAlike(lines, start, wealth, bet, player, dealer, deck, a1, r1, r2);
      } else if r1.Settled? {
        SettledNotAborted(lines, start, wealth, bet, player, dealer, deck, a1, r1, r2);
      } else if r2.Settled? {
        SettledNotAborted(lines, start, wealth, bet, player, dealer, deck, a1, r2, r1);
      } else {
        AbortsAlike(lines, start, wealth, bet, player, dealer, deck, a1, r1, r2);
      }
    }
  }

  // ---------------------------------------------------------------- the session

  /** The player record: a name and a wealth that fits in a u32. */
  class Player {
    var name: string
    var wealth: nat

    constructor (name: string, wealth: nat)
      ensures this.name == name && this.wealth == wealth
    {
      this.name := name;
      this.wealth := wealth;
    }
  }

  /** Why a session ended. */
  datatype Stop = Finished | SaveFailed | Halted(failure: Failure)

  /**
   * One pass of the session loop: the wealth and the deck it started with,
   * the line its bet was read from, the shoe dealt from, the player's
   * answers and how the round ended.
   */
  datatype Pass = Pass(wealth: nat, deck: seq<Card>, start: nat, shoe: seq<Card>, answers: seq<Read>, round: RoundEnd)

  /** The wealth a pass leaves: a settled round's, otherwise the wealth it started with. */
  function WealthAfter(p: Pass): nat
  {
    if p.round.Settled? then p.round.wealth else p.wealth
  }

  /** The deck a pass leaves: a settled round's, otherwise the deck it started with. */
  function DeckAfter(p: Pass): seq<Card>
  {
    if p.round.Settled? then p.round.deck else p.deck
  }

  /** The line the pass after the last of `trace` reads its bet from. */
  function NextLine(trace: seq<Pass>): nat
  {
    if trace == [] then 0
    else match trace[|trace| - 1].round
      case BetRefused(next) => next
      case Settled(_, _, _, _, _, _, _, next) => next
      case Aborted(_) => 0
  }

  /**
   * A pass is played only while 0 < wealth < u32::MAX and is a round
   * played from its line, wealth and deck (RoundPlayed). A settled round
   * holds exactly the cards of the shoe among the two hands and the deck
   * left, none of them twice.
   */
  ghost predicate PassHolds(lines: seq<Line>, p: Pass)
  {
    && 0 < p.wealth < U32_MAX
    && RoundPlayed(lines, p.wealth, p.deck, p.start, p.shoe, p.answers, p.round)
    && (p.round.Settled? ==>
          && multiset(p.round.player) + multiset(p.round.dealer) + multiset(p.round.deck) == Shoe(p.deck)
          && Distinct(p.round.player + p.round.dealer + p.round.deck))
  }

  /**
   * `trace` is a session that starts with wealth `w0` and leaves `w`: each
   * pass follows a successful save, holds, starts with the wealth and the
   * deck the one before left (the first with a shuffled full deck), reads
   * on from the line the one before stopped at, and only the last may be
   * aborted.
   */
  ghost predicate Session(lines: seq<Line>, saved: nat -> bool, w0: nat, trace: seq<Pass>, w: nat)
    decreases |trace|
  {
    if trace == [] then w == w0
    else
      var prior, p := trace[..|trace| - 1], trace[|trace| - 1];
      && Session(lines, saved, w0, prior, p.wealth)
      && saved(|prior|)
      && (prior != [] ==> !prior[|prior| - 1].round.Aborted?)
      && (if prior == [] then multiset(p.deck) == multiset(FullDeck()) else p.deck == DeckAfter(prior[|prior| - 1]))
      && p.start == NextLine(prior)
      && PassHolds(lines, p)
      && w == WealthAfter(p)
  }

  /**
   * Two hands and a deck that hold exactly the cards of the shoe for a deck
   * drawn from one fresh deck hold no card twice, and the deck left is drawn
   * from one fresh deck too.
   */
  lemma ShoeCardsOnce(deck: seq<Card>, player: seq<Card>, dealer: seq<Card>, left: seq<Card>)
    requires multiset(deck) <= multiset(FullDeck())
    requires multiset(player) + multiset(dealer) + multiset(left) == Shoe(deck)
    ensures Distinct(player + dealer + left) && multiset(left) <= multiset(FullDeck())
  {
    assert multiset(player + dealer + left) == multiset(player) + multiset(dealer) + multiset(left);
    NoCardTwice(player + dealer + left);
  }

  /**
   * A round played while 0 < wealth < u32::MAX on a deck drawn from one
   * fresh deck is a pass that holds, reads on from a later line unless it
   * aborted, and when settled leaves a deck drawn from one fresh deck and a
   * wealth within u32.
   */
  lemma PassOfRound(lines: seq<Line>, p: Pass)
    requires 0 < p.wealth < U32_MAX && p.start <= |lines| && multiset(p.deck) <= multiset(FullDeck())
    requires RoundPlayed(lines, p.wealth, p.deck, p.start, p.shoe, p.answers, p.round)
    ensures PassHolds(lines, p)
    ensures !p.round.Aborted? ==> p.start < NextLine([p]) <= |lines|
    ensures p.round.Settled? ==> multiset(p.round.deck) <= multiset(FullDeck()) && p.round.wealth <= U32_MAX
  {
    if p.round.Settled? {
      RoundSettles(lines, p.wealth, p.deck, p.start, p.shoe, p.answers, p.round);
      ShoeCardsOnce(p.deck, p.round.player, p.round.dealer, p.round.deck);
    }
  }

  /**
   * One pass of the session loop after a successful save: a round played
   * from line `next` with wealth `wealth` on a deck drawn from one fresh
   * deck; `p` records it.
   */
  method PlayPass(wealth: nat, deck: seq<Card>, lines: seq<Line>, next: nat, draw: nat -> nat)
    returns (r: RoundEnd, ghost p: Pass)
    requires 0 < wealth < U32_MAX && next <= |lines|
    requires multiset(deck) <= multiset(FullDeck())
    ensures p.wealth == wealth && p.deck == deck && p.start == next && p.round == r && PassHolds(lines, p)
    ensures !r.Aborted? ==> next < NextLine([p]) <= |lines|
    ensures r.Settled? ==> multiset(r.deck) <= multiset(FullDeck()) && r.wealth <= U32_MAX
  {
    ghost var answers, shoe;
    r, answers, shoe := PlayRound(wealth, deck, lines, next, draw);
    p := Pass(wealth, deck, next, shoe, answers, r);
    PassOfRound(lines, p);
  }

  /** A session goes on by one more pass. */
  lemma SessionStep(lines: seq<Line>, saved: nat -> bool, w0: nat, trace: seq<Pass>, w: nat, p: Pass)
    requires Session(lines, saved, w0, trace, w) && (trace != [] ==> !trace[|trace| - 1].round.Aborted?)
    requires saved(|trace|) && p.wealth == w && p.start == NextLine(trace) && PassHolds(lines, p)
    requires if trace == [] then multiset(p.deck) == multiset(FullDeck()) else p.deck == DeckAfter(trace[|trace| - 1])
    ensures Session(lines, saved, w0, trace + [p], WealthAfter(p))
  {
    assert (trace + [p])[..|trace|] == trace;
  }

  /** The i-th pass of a session follows the i-th successful save and holds. */
  lemma {:induction false} SessionPass(lines: seq<Line>, saved: nat -> bool, w0: nat, trace: seq<Pass>, w: nat, i: nat)
    requires Session(lines, saved, w0, trace, w) && i < |trace|
    ensures saved(i) && PassHolds(lines, trace[i])
    decreases |trace|
  {
    if i < |trace| - 1 {
      var prior := trace[..|trace| - 1];
      SessionPass(lines, saved, w0, prior, trace[|trace| - 1].wealth, i);
      assert trace[i] == prior[i];
    }
  }

  /** A session's first pass starts from `w0` at the first line, with a shuffled full deck. */
  lemma {:induction false} SessionFirst(lines: seq<Line>, saved: nat -> bool, w0: nat, trace: seq<Pass>, w: nat)
    requires Session(lines, saved, w0, trace, w) && trace != []
    ensures trace[0].wealth == w0 && trace[0].start == 0
    ensures multiset(trace[0].deck) == multiset(FullDeck())
    decreases |trace|
  {
    var prior := trace[..|trace| - 1];
    if prior != [] {
      SessionFirst(lines, saved, w0, prior, trace[|trace| - 1].wealth);
      assert trace[0] == prior[0];
    }
  }

  /**
   * A session's passes one by one: the i-th follows the i-th successful save
   * and holds, and the first starts from `w0` at the first line, with a
   * shuffled full deck.
   */
  lemma SessionPasses(lines: seq<Line>, saved: nat -> bool, w0: nat, trace: seq<Pass>, w: nat)
    requires Session(lines, saved, w0, trace, w)
    ensures forall i :: 0 <= i < |trace| ==> saved(i) && PassHolds(lines, trace[i])
    ensures trace != [] ==> trace[0].wealth == w0 && trace[0].start == 0
    ensures trace != [] ==> multiset(trace[0].deck) == multiset(FullDeck())
  {
    forall i | 0 <= i < |trace| ensures saved(i) && PassHolds(lines, trace[i]) {
      SessionPass(lines, saved, w0, trace, w, i);
    }
    if trace != [] {
      SessionFirst(lines, saved, w0, trace, w);
    }
  }

  /** A session leaves the wealth its last pass leaves, or `w0` when it played none. */
  lemma SessionLeaves(lines: seq<Line>, saved: nat -> bool, w0: nat, trace: seq<Pass>, w: nat)
    requires Session(lines, saved, w0, trace, w)
    ensures w == if trace == [] then w0 else WealthAfter(trace[|trace| - 1])
  {
  }

  /**
   * Consecutive passes of a session chain: the (i+1)-th starts with the
   * wealth and the deck the i-th left, and the i-th did not abort.
   */
  lemma {:induction false} SessionLink(lines: seq<Line>, saved: nat -> bool, w0: nat, trace: seq<Pass>, w: nat, i: nat)
    requires Session(lines, saved, w0, trace, w) && i + 1 < |trace|
    ensures trace[i + 1].wealth == WealthAfter(trace[i]) && trace[i + 1].deck == DeckAfter(trace[i])
    ensures trace[i + 1].start == NextLine([trace[i]]) && !trace[i].round.Aborted?
    decreases |trace|
  {
    if i + 2 < |trace| {
      var prior := trace[..|trace| - 1];
      SessionLink(lines, saved, w0, prior, trace[|trace| - 1].wealth, i);
      assert trace[i] == prior[i] && trace[i + 1] == prior[i + 1];
    } else {
      SessionLastLink(lines, saved, w0, trace, w);
    }
  }

  /** The last pass of a session starts with the wealth and the deck the one before it left. */
  lemma SessionLastLink(lines: seq<Line>, saved: nat -> bool, w0: nat, trace: seq<Pass>, w: nat)
    requires Session(lines, saved, w0, trace, w) && |trace| >= 2
    ensures var n := |trace|;
      && trace[n - 1].wealth == WealthAfter(trace[n - 2]) && trace[n - 1].deck == DeckAfter(trace[n - 2])
      && trace[n - 1].start == NextLine([trace[n - 2]]) && !trace[n - 2].round.Aborted?
  {
    var prior := trace[..|trace| - 1];
    SessionLeaves(lines, saved, w0, prior, trace[|trace| - 1].wealth);
    assert trace[|trace| - 2] == prior[|prior| - 1];
  }

  /**
   * Consecutive passes of a session chain: each starts with the wealth and
   * the deck the one before left, and only after a pass that did not abort.
   */
  lemma SessionLinks(lines: seq<Line>, saved: nat -> bool, w0: nat, trace: seq<Pass>, w: nat)
    requires Session(lines, saved, w0, trace, w)
    ensures forall i :: 0 <= i < |trace| - 1 ==> trace[i + 1].wealth == WealthAfter(trace[i])
    ensures forall i :: 0 <= i < |trace| - 1 ==> trace[i + 1].deck == DeckAfter(trace[i])
    ensures forall i :: 0 <= i < |trace| - 1 ==> !trace[i].round.Aborted?
  {
    forall i | 0 <= i < |trace| - 1
      ensures trace[i + 1].wealth == WealthAfter(trace[i]) && trace[i + 1].deck == DeckAfter(trace[i])
      ensures !trace[i].round.Aborted?
    {
      SessionLink(lines, saved, w0, trace, w, i);
    }
  }

  /** Every proper prefix of a session is a session, leaving the wealth the next pass starts with. */
  lemma {:induction false} SessionPrefix(lines: seq<Line>, saved: nat -> bool, w0: nat, trace: seq<Pass>, w: nat, k: nat)
    requires Session(lines, saved, w0, trace, w) && k < |trace|
    ensures Session(lines, saved, w0, trace[..k], trace[k].wealth)
    decreases |trace|
  {
    var prior := trace[..|trace| - 1];
    if k < |prior| {
      SessionPrefix(lines, saved, w0, prior, trace[|trace| - 1].wealth, k);
      assert prior[..k] == trace[..k] && prior[k] == trace[k];
    }
  }

  /** Two passes that start alike (wealth, deck, line and shoe) are the same pass. */
  lemma {:induction false} PassUnique(lines: seq<Line>, p: Pass, q: Pass)
    requires PassHolds(lines, p) && PassHolds(lines, q)
    requires p.wealth == q.wealth && p.deck == q.deck && p.start == q.start && p.shoe == q.shoe
    ensures p == q
  {
    RoundPlayedUnique(lines, p.wealth, p.deck, p.start, p.shoe, p.answers, p.round, q.answers, q.round);
  }

  /**
   * The i-th passes of two sessions from the same lines, saves and wealth,
   * with the same first deck and the same shoes up to the i-th pass, are
   * the same pass.
   */
  lemma {:induction false} PassesAgree(lines: seq<Line>, saved: nat -> bool, w0: nat, t1: seq<Pass>, w1: nat, t2: seq<Pass>, w2: nat, i: nat)
    requires Session(lines, saved, w0, t1, w1) && Session(lines, saved, w0, t2, w2) && i < |t1| && i < |t2|
    requires t1[0].deck == t2[0].deck
    requires forall j :: 0 <= j <= i ==> t1[j].shoe == t2[j].shoe
    ensures t1[i] == t2[i]
    decreases i
  {
    if i == 0 {
      SessionFirst(lines, saved, w0, t1, w1);
      SessionFirst(lines, saved, w0, t2, w2);
    } else {
      PassesAgree(lines, saved, w0, t1, w1, t2, w2, i - 1);
      SessionLink(lines, saved, w0, t1, w1, i - 1);
      SessionLink(lines, saved, w0, t2, w2, i - 1);
    }
    PassAgrees(lines, saved, w0, t1, w1, t2, w2, i);
  }

  /** The i-th passes of two sessions that start alike (wealth, deck, line and shoe) are the same pass. */
  lemma {:induction false} PassAgrees(lines: seq<Line>, saved: nat -> bool, w0: nat, t1: seq<Pass>, w1: nat, t2: seq<Pass>, w2: nat, i: nat)
    requires Session(lines, saved, w0, t1, w1) && Session(lines, saved, w0, t2, w2) && i < |t1| && i < |t2|
    requires t1[i].wealth == t2[i].wealth && t1[i].deck == t2[i].deck && t1[i].start == t2[i].start && t1[i].shoe == t2[i].shoe
    ensures t1[i] == t2[i]
  {
    SessionPass(lines, saved, w0, t1, w1, i);
    SessionPass(lines, saved, w0, t2, w2, i);
    PassUnique(lines, t1[i], t2[i]);
  }

  /**
   * Two sessions of as many passes from the same lines, saves and wealth,
   * with the same first deck and the same shoe at every pass, are the same
   * session and leave the same wealth.
   */
  lemma {:induction false} SessionsAgree(lines: seq<Line>, saved: nat -> bool, w0: nat, t1: seq<Pass>, w1: nat, t2: seq<Pass>, w2: nat)
    requires Session(lines, saved, w0, t1, w1) && Session(lines, saved, w0, t2, w2) && |t1| == |t2|
    requires t1 != [] ==> t1[0].deck == t2[0].deck
    requires forall i :: 0 <= i < |t1| ==> t1[i].shoe == t2[i].shoe
    ensures t1 == t2 && w1 == w2
  {
    forall i | 0 <= i < |t1| ensures t1[i] == t2[i] {
      PassesAgree(lines, saved, w0, t1, w1, t2, w2, i);
    }
    SessionLeaves(lines, saved, w0, t1, w1);
    SessionLeaves(lines, saved, w0, t2, w2);
  }

  /**
   * A session ends in one way only: two ends of the session loop from the
   * same lines, saves and wealth, with the same first deck and the same
   * shoe at every pass both played, played the same passes, left the same
   * wealth and stopped for the same reason.
   */
  lemma {:induction false} SessionEndsUnique(lines: seq<Line>, saved: nat -> bool, w0: nat,
                          t1: seq<Pass>, w1: nat, s1: Stop, t2: seq<Pass>, w2: nat, s2: Stop)
    requires SessionEnds(lines, saved, w0, t1, w1, s1) && SessionEnds(lines, saved, w0, t2, w2, s2)
    requires t1 != [] && t2 != [] ==> t1[0].deck == t2[0].deck
    requires forall i :: 0 <= i < |t1| && i < |t2| ==> t1[i].shoe == t2[i].shoe
    ensures t1 == t2 && w1 == w2 && s1 == s2
  {
    SessionNotCut(lines, saved, w0, t1, w1, s1, t2, w2);
    SessionNotCut(lines, saved, w0, t2, w2, s2, t1, w1);
    SessionsAgree(lines, saved, w0, t1, w1, t2, w2);
  }

  /** A session that has ended is no proper prefix of another session with the same first deck and shoes. */
  lemma {:induction false} SessionNotCut(lines: seq<Line>, saved: nat -> bool, w0: nat, t1: seq<Pass>, w1: nat, s1: Stop, t2: seq<Pass>, w2: nat)
    requires SessionEnds(lines, saved, w0, t1, w1, s1) && Session(lines, saved, w0, t2, w2)
    requires t1 != [] && t2 != [] ==> t1[0].deck == t2[0].deck
    requires forall i :: 0 <= i < |t1| && i < |t2| ==> t1[i].shoe == t2[i].shoe
    ensures |t1| >= |t2|
  {
    if |t1| < |t2| {
      var k := |t1|;
      SessionPrefix(lines, saved, w0, t2, w2, k);
      SessionsAgree(lines, saved, w0, t1, w1, t2[..k], t2[k].wealth);
      SessionPass(lines, saved, w0, t2, w2, k);
      if k > 0 {
        SessionLink(lines, saved, w0, t2, w2, k - 1);
      }
    }
  }

  /**
   * The session loop can go on from here: `trace` is a session from `w0`
   * leaving `w`, its last pass did not abort, `deck` is the deck that pass
   * left (a shuffled full deck before the first) and `next` the line it
   * stopped at.
   */
  ghost predicate Resumable(lines: seq<Line>, saved: nat -> bool, w0: nat, trace: seq<Pass>, w: nat, deck: seq<Card>, next: nat)
  {
    && Session(lines, saved, w0, trace, w)
    && (trace != [] ==> !trace[|trace| - 1].round.Aborted?)
    && multiset(deck) <= multiset(FullDeck())
    && (if trace == [] then multiset(deck) == multiset(FullDeck()) else deck == DeckAfter(trace[|trace| - 1]))
    && next == NextLine(trace) && next <= |lines|
  }

  /** A pass that does not abort leaves the session loop able to go on, with its wealth, deck and line. */
  lemma SessionResumes(lines: seq<Line>, saved: nat -> bool, w0: nat, trace: seq<Pass>, w: nat, deck: seq<Card>, next: nat, p: Pass)
    requires Resumable(lines, saved, w0, trace, w, deck, next) && saved(|trace|)
    requires p.wealth == w && p.deck == deck && p.start == next && PassHolds(lines, p) && !p.round.Aborted?
    requires NextLine([p]) <= |lines|
    requires p.round.Settled? ==> multiset(p.round.deck) <= multiset(FullDeck())
    ensures Resumable(lines, saved, w0, trace + [p], WealthAfter(p), DeckAfter(p), NextLine([p]))
  {
    SessionStep(lines, saved, w0, trace, w, p);
    assert (trace + [p])[|trace|] == p;
  }

  /**
   * How a session that played `trace` from wealth `w0` and left `w` may
   * stop: Finished exactly when the wealth is 0 or u32::MAX, SaveFailed
   * only when the next save failed, and Halted exactly when the last pass
   * aborted, for the reason it aborted.
   */
  ghost predicate SessionEnds(lines: seq<Line>, saved: nat -> bool, w0: nat, trace: seq<Pass>, w: nat, stop: Stop)
  {
    && Session(lines, saved, w0, trace, w)
    && (stop == Finished <==> w == 0 || w == U32_MAX)
    && (stop == SaveFailed ==> !saved(|trace|))
    && (stop.Halted? <==> trace != [] && trace[|trace| - 1].round.Aborted?)
    && (stop.Halted? ==> trace[|trace| - 1].round == Aborted(stop.failure))
  }

  /** A session loop that could go on stops when the wealth leaves (0, u32::MAX) or the next save fails. */
  lemma SessionStops(lines: seq<Line>, saved: nat -> bool, w0: nat, trace: seq<Pass>, w: nat, deck: seq<Card>, next: nat, stop: Stop)
    requires Resumable(lines, saved, w0, trace, w, deck, next) && w <= U32_MAX
    requires stop == Finished || stop == SaveFailed
    requires stop == Finished <==> w == 0 || w == U32_MAX
    requires stop == SaveFailed ==> !saved(|trace|)
    ensures SessionEnds(lines, saved, w0, trace, w, stop)
  {
  }

  /**
   * The session loop's pass after the save numbered |trace| succeeded: a
   * round played from line `next` with `wealth` and `deck`, recorded as
   * `p`. An aborted round ends the session with the wealth unchanged;
   * otherwise the loop can go on with the wealth, deck and line the round
   * left, from a later line than this one.
   */
  method NextRound(wealth: nat, deck: seq<Card>, lines: seq<Line>, next: nat, draw: nat -> nat,
                   ghost saved: nat -> bool, ghost w0: nat, ghost trace: seq<Pass>)
    returns (r: RoundEnd, wealth': nat, deck': seq<Card>, next': nat, ghost p: Pass)
    requires 0 < wealth < U32_MAX && Resumable(lines, saved, w0, trace, wealth, deck, next) && saved(|trace|)
    ensures p.round == r && wealth' <= U32_MAX
    ensures r.Aborted? ==> SessionEnds(lines, saved, w0, trace + [p], wealth, Halted(r.failure)) && wealth' == wealth
    ensures !r.Aborted? ==> Resumable(lines, saved, w0, trace + [p], wealth', deck', next') && next < next'
  {
    r, p := PlayPass(wealth, deck, lines, next, draw);
    wealth', deck', next' := wealth, deck, next;
    if r.Aborted? {
      SessionStep(lines, saved, w0, trace, wealth, p);
      assert (trace + [p])[|trace|] == p;
      return;
    }
    SessionResumes(lines, saved, w0, trace, wealth, deck, next, p);
    match r
    case BetRefused(after) =>
      next' := after;
    case Settled(_, _, _, _, _, won, left, after) =>
      wealth', deck', next' := won, left, after;
  }

  /**
   * Play rounds while 0 < wealth < u32::MAX, saving before each. rng(i, k)
   * is the k-th random draw of the i-th shuffle; saved(i) says whether the
   * i-th save succeeds. `trace` records the passes played, in order.
   */
  method Game(player: Player, lines: seq<Line>, rng: (nat, nat) -> nat, saved: nat -> bool)
    returns (stop: Stop, ghost trace: seq<Pass>)
    requires player.wealth <= U32_MAX
    modifies player
    ensures player.name == old(player.name)
    ensures player.wealth <= U32_MAX
    ensures SessionEnds(lines, saved, old(player.wealth), trace, player.wealth, stop)
  {
    ghost var w0 := player.wealth;
    var deck := CreateDeck();
    deck := ShuffleDeck(deck, (k: nat) => rng(0, k));
    var wealth, next, pass := player.wealth, 0, 0;
    trace := [];
    while 0 < wealth < U32_MAX
      invariant player.name == old(player.name) && player.wealth == wealth <= U32_MAX
      invariant Resumable(lines, saved, w0, trace, wealth, deck, next)
      invariant pass == |trace|
      decreases |lines| - next
    {
      if !saved(pass) {
        SessionStops(lines, saved, w0, trace, wealth, deck, next, SaveFailed);
        return SaveFailed, trace;
      }
      pass := pass + 1;
      var n := pass;
      var r; ghost var p;
      r, wealth, deck, next, p := NextRound(wealth, deck, lines, next, (k: nat) => rng(n, k), saved, w0, trace);
      trace := trace + [p];
      if r.Aborted? {
        return Halted(r.failure), trace;
      }
      player.wealth := wealth;
    }
    SessionStops(lines, saved, w0, trace, wealth, deck, next, Finished);
    return Finished, trace;
  }
}
