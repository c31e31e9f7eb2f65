# Blackjack, modelled in Dafny

A model of the game core of a terminal blackjack game written in Rust. It covers:

- **The deck.** A fixed-order deck of 52 cards, and a shuffle.
- **Hand scoring.** Hands are scored with the soft-ace rule: an ace counts 11, then drops to 1 while the hand is over 21.
- **Dealing.** Cards are dealt by popping the deck, whose top is its last card.
- **One session at the table.** The session is a loop over rounds, and each round runs these steps:
  1. Save the player record.
  2. Read a bet and debit it.
  3. Refill the deck when fewer than 26 cards remain.
  4. Deal two cards to the player, then two to the dealer.
  5. Settle naturals (a first-two-card 21).
  6. Play the player's turn: Hit, Stand or Double down.
  7. Play the dealer's turn. The dealer hits while under 17 and not ahead of the player.
  8. Pay out.

  The loop runs while the player's wealth is above 0 and below `u32::MAX`.
- **The two menu decoders.** Each turns a `u8` into one of three choices, or into an error message.

Modules:

- **`Deck`** (`deck.dfy`): cards, the fresh deck and the shuffle.
- **`Hand`** (`hand.dfy`): the hand value, with `HandValue` as its specification and the scoring method `CardsValue` proved against it.
- **`Dealing`** (`dealing.dfy`): dealing from the top of the deck, plus the bookkeeping that shows no card is created or lost.
- **`Ledger`** (`ledger.dfy`): u32 wealth arithmetic, with the overflow reported under Findings.
- **`Round`** (`round.dfy`): the bet, a round and the session loop.
- **`Menu`** (`menu.dfy`): the `TryFrom<u8>` decoders.

Decks and hands are values (`seq<Card>`), and each operation returns the new hand and deck. The player record is a `Player` class. The session method `Game` updates its `wealth` field in place, as `game(&mut Player)` does.

The outside world is represented by inputs:

- **Input lines.** Standard input is a finite sequence of lines, each already parsed into a number (`Line.Number`) or not (`Line.Garbage`). A position into that sequence says how much has been read.
- **Random draws.** The random numbers of each shuffle are a function parameter.
- **Saves.** Whether each save succeeds is a function parameter.

Behaviour worth knowing, modelled as the code has it:

- **A bet of 0 is accepted.** It parses as a `u32` and is not more than the wealth.
- **The dealer also stands early when ahead.** The usual casino rule has the dealer hit below 17 and stand at 17 or more, whatever the player holds. Here the dealer never hits at 17 or more either, but it also stands below 17 once its value is above the player's: it hits only while below 17 and not above the player (`Round.DealerHits`, `Round.DealerStandRule`).
- **Double down is not limited to the first action of a turn.** The counter `index` is reset on every pass of the player loop. So double down is refused only after an invalid entry at the same prompt, or when the wealth left after the bet's debit is below the bet. A Hit followed by a 3 is accepted as a double down.
- **The counter wraps.** The counter is a `u8` incremented before each read. After 255 rejected entries at one prompt it wraps to 0 in a release build, and 3 is then accepted again (`Round.PromptIndex`).
- **Wealth is a `u32` throughout.** Bets, stakes and credits are all 32-bit unsigned numbers (`Ledger`).

## Model

| member | source | states |
|---|---|---|
| `Deck.FullDeck` | src/game.rs:64-89 | The fresh deck has 52 cards, from 2♠ first to A♦ last. |
| `Deck.CreateDeck` | src/game.rs:64-89 | The built deck is exactly the suit-major sequence over ICON_ARRAY × NUM_ARRAY. It has 52 cards and holds every (rank, suit) pair exactly once. |
| `Deck.FullDeckComplete` | src/game.rs:79-86 | The fresh deck has 52 cards, no card twice, and contains every card. |
| `Deck.FullDeckPosition` | src/game.rs:79-86 | A card sits in the fresh deck at position 13·suit + rank, and at no other position. |
| `Deck.FullDeckExactlyOnce` | src/game.rs:79-86 | Every (rank, suit) pair occurs exactly once in the fresh deck. |
| `Deck.DistinctOnce` | src/game.rs:79-86 | A sequence without repetitions holds each of its members exactly once. |
| `Deck.NoCardTwice` | src/game.rs:246-300 | A deck whose cards are a sub-multiset of one fresh deck holds no card twice. `Round.PlayPass` applies it to the two hands and the deck of every settled round, so every settled pass of `Round.Game`'s trace holds no card twice. |
| `Deck.ShuffleDeck` | src/game.rs:92-97 | The shuffled deck is a permutation of the input: same length, same multiset of cards. |
| `Hand.RankValue` | src/game.rs:110-125 | A rank first counts 2 to 11, and it counts 11 exactly for an ace. |
| `Hand.AceCount` | src/game.rs:110-113 | A hand holds no more aces than cards. |
| `Hand.RawSum` | src/game.rs:110-126 | The sum with every ace at 11 is at least 11 per ace and at least 2 per card. |
| `Hand.HandValue` | src/game.rs:104-134 | The value never exceeds the raw sum. A hand whose raw sum is at most 21, or that holds no ace, is worth its raw sum. |
| `Hand.CardsValue` | src/game.rs:104-134 | The total returned equals `HandValue`: the raw sum with aces at 11, less 10 for each demoted ace. |
| `Hand.DemotionsUnique` | src/game.rs:128-131 | The demotion loop stops at the only possible count. It demotes no more aces than there are, leaves the total ≤ 21 unless every ace is demoted, and demotes only while the total is over 21. |
| `Hand.SoftAceRule` | src/game.rs:128-131 | After scoring, either the value is ≤ 21 or every ace has been demoted. No ace is demoted twice. The value is the raw sum less 10 per demoted ace. |
| `Hand.RawAtLeastOnePerCard` | src/game.rs:110-126 | With every ace counted at 1, each card is worth at least 1. |
| `Hand.HandValueBounds` | src/game.rs:104-134 | The value lies between the number of cards and the raw sum. |
| `Hand.TwoCardsFit` | src/game.rs:340 | A two-card hand is worth at most 21, so the player's turn always reads at least one answer. |
| `Hand.TwoCardExamples` | src/game.rs:104-134 | [A,A] is worth 12 and [A,K] is worth 21. |
| `Hand.ThreeCardExamples` | src/game.rs:104-134 | [A,A,9] is worth 21 and [K,K,5] is worth 25. |
| `Hand.PrefixValueIs` | src/game.rs:340 | The value a hand had at j cards is the value of its first j cards. |
| `Dealing.DealCards` | src/game.rs:137-154 | The call fails exactly when the deck holds fewer than `amount` cards. Otherwise the hand gains the top `amount` cards in pop order and the deck loses them. The multiset of hand plus deck is unchanged. |
| `Dealing.DrawnSplit` | src/game.rs:143-152 | The popped cards together with what is left are exactly the deck. |
| `Dealing.TookFromTopCounts` | src/game.rs:143-152 | Any growth of a hand by pops from the deck creates and loses no card. |
| `Ledger.Debit` | src/game.rs:286 | The debit as written: a u32 subtraction that wraps, then the clamp into 0..`u32::MAX`. For an affordable amount, the result plus the amount is exactly the wealth, so neither the wrap nor the clamp changes anything. The double-down debit at src/game.rs:397 uses the same function. |
| `Ledger.Credit` | src/game.rs:304 | The intended credit is the exact sum, or `u32::MAX` when the sum does not fit. It never exceeds `u32::MAX`. |
| `Ledger.CreditAsWritten` | src/game.rs:314 | The credit as the code computes it: a u32 product and sum that wrap before the clamp. It agrees with `Credit` whenever nothing overflows. |
| `Ledger.WinOverflowLoses` | src/game.rs:442 | Whenever a doubled payout overflows, the code as written credits less than the clamp intends: exactly the sum minus 2^32. |
| `Ledger.WinOverflowExample` | src/game.rs:462 | Betting 4,000,000,000 from 4,000,000,000 and winning leaves 3,705,032,704 instead of `u32::MAX`. |
| `Round.PlaceBet` | src/game.rs:268-286 | A bet is placed exactly when the line parses and is ≤ the wealth, and the new wealth is wealth − bet. The line is refused as unparsable exactly when it is not a u32. A bet over the wealth is refused and the wealth is unchanged. |
| `Round.Payout` | src/game.rs:302-328 | A round pays back nothing, the stake or twice the stake. A player bust and a dealer blackjack pay nothing. |
| `Round.Verdict` | src/game.rs:302-476 | The outcome is a natural exactly when either first-two-card hand is worth 21. Without naturals it is a player bust exactly when the player's hand is over 21. A dealer bust means the player is at most 21 and the dealer over it. Equal values mean both are equal and at most 21. |
| `Round.NaturalsPay` | src/game.rs:302-328 | After the deal: a shared 21 refunds the stake, the player's 21 alone pays double, and the dealer's 21 alone pays nothing. |
| `Round.ShowdownPays` | src/game.rs:440-476 | Without naturals: double when the player did not bust and the dealer busted or ended lower; the stake back on equal values within 21; nothing when the player busted or the dealer ended higher without busting. |
| `Round.BlackjackRoundExample` | src/game.rs:302-320 | Wealth 10, bet 10, [A,K] against [9,8]: a player blackjack that leaves 20. |
| `Round.PromptIndex` | src/game.rs:344-346 | The u8 counter at the k-th read of one pass is below 256. It is k + 1 up to the 255th read, and it wraps to 0 at the 256th. |
| `Round.Accepts` | src/game.rs:358-383 | Only a number from 0 to 3 is accepted, and every number from 0 to 2 is. A 3 is accepted exactly when the wealth covers the bet and the counter is at most 1. |
| `Round.ReadChoice` | src/game.rs:342-385 | The answer is the first line from the start that parses as a number 0..3 (`Picks`). A 3 counts only while wealth ≥ bet and the u8 counter is at most 1. Every line skipped was refused. No answer is returned exactly when every remaining line is refused (`Refused`). |
| `Round.Hit` | src/game.rs:387-388 | Dealing one more card keeps the record of cards taken off the top. The earlier hand values are unchanged, and the hand before the card becomes one of them. |
| `Round.AnsweredStep` | src/game.rs:345-385 | Appending the next accepted answer, read from where the previous one stopped, extends the answer record. It counts one more card exactly for a 1 or a 3. |
| `Round.AnsweredChoices` | src/game.rs:387-406 | In a record of answers, every answer before the last is a 0 or a 1, and every answer is at most 3. |
| `Round.Hits` | src/game.rs:387-400 | The number of cards the answers ask for never exceeds the number of answers. |
| `Round.PlayerAct` | src/game.rs:342-404 | One pass of the turn loop. The answer is the next accepted line from `next`, with every skipped line refused at its counter value. A 1 or a 3 takes exactly the top card, at a hand value ≤ 21, and anything else leaves hand and deck unchanged. A 3 needs wealth ≥ bet. It fails with no line only when every line from `next` is refused, and for want of a card only after an accepted 1 or 3 on an empty deck. |
| `Round.Prompts` | src/game.rs:340-407 | The turn loop. A finished turn is `TurnTaken`: the answers are the lines picked in order, each the first accepted line after the previous one, and every answer before the last is a 0 or a 1. The cards taken equal the number of 1 and 3 answers. No answer is read exactly when the hand is already over 21. The turn ends Stood exactly when the last answer is 2, DoubledDown exactly when it is 3, and on Busted otherwise. The next line is the one after the last answer. A failed turn is `TurnStops`: NoInput only while the hand is still playing and every later line is refused; DeckExhausted only when the hand has taken the whole deck and the last answer asks for one more card. |
| `Round.RanOutOfCards` | src/game.rs:387-404 | A 1 or a 3 accepted when the playing hand has taken the whole deck stops the turn with DeckExhausted. |
| `Round.PlayerTurn` | src/game.rs:340-407 | The player's turn as `Prompts` reads it, with the answers returned, on success and on failure (`TurnStops`). It also states the money: a double down debits the bet once more (wealth ≥ bet needed) and doubles the stake; any other end leaves wealth and bet alone. Stood means a value ≤ 21, Busted more than 21. |
| `Round.DealerTurn` | src/game.rs:423-438 | Every value at which the dealer drew satisfied the hit rule, and the final value does not. It runs out of cards only when every value on the way through the whole deck, the last included, satisfies the hit rule (`DealerRanOut`). |
| `Round.DealerHits` | src/game.rs:427-428 | The dealer draws only below 17 and while not above the player. |
| `Round.DealerStandRule` | src/game.rs:426-429 | The dealer stands exactly when at 17 or more, or ahead of the player. |
| `Round.Refill` | src/game.rs:288-292 | Below 26 cards the deck is replaced by 52 cards forming a permutation of a fresh deck. Otherwise it is left alone. |
| `Round.InitialDeal` | src/game.rs:294-300 | The player gets the top two cards, the dealer the next two, and the rest stays. No card is created or lost. |
| `Round.DealtFromShoe` | src/game.rs:294-300 | The two hands dealt and the cards left hold exactly the cards of the shoe. |
| `Round.Showdown` | src/game.rs:409-476 | After the player's turn: a bust loses at once with the dealer's hand untouched, otherwise the dealer plays by its rule. The dealer's hand is its two cards followed by the cards popped, in pop order, from the deck the turn left, and the deck left is what remains (`TookFromTop`). The result is `PlayedOut`: the player's hand is the dealt hand followed by the cards popped from the dealt deck, the outcome is `Verdict` of the final hands and the wealth is credited with `Payout`. The player's hand, the stake and the next line are those of the turn. It aborts only for want of cards, when the player is within 21 and the dealer would still have to hit after the whole deck. `Round.DealerUnique` shows the dealer's hand is the only one its rule allows. |
| `Round.PlayTurns` | src/game.rs:330-476 | Without naturals: a settled round is `PlayedOut` and not a natural. Its answers are the lines picked in turn from the line after the bet (`AsAnswered`). The player's hand is the dealt hand followed by one card popped off the deck for each 1 or 3, in pop order. The stake is doubled exactly when an answer is 3. A last answer of 1 means the hand went over 21, and a last answer of 2 means it stood within 21. The dealer's cards are popped in order from what the player left. At least one answer is read. An aborted round is explained by `PlayAborts`: either the player's turn stopped (`TurnStops`), or it ended within 21 on a 2 or a 3 and the dealer ran out of cards. `Round.HandsPlayedUnique` shows this fixes the answers and the round. |
| `Round.DealerPhase` | src/game.rs:417-476 | The dealer's hand is its two cards followed by cards popped off the deck in pop order, and the deck left is the rest (`TookFromTop`). Every value at which it drew satisfies the hit rule and the final one does not (`DealerFollowedRule`), which `Round.DealerUnique` shows fixes the hand. A dealer bust pays double, equal values refund, the player ahead pays double, and the dealer ahead pays nothing. It can only settle or abort for want of cards, and it aborts only when the dealer, drawing the whole deck, would still have to hit. |
| `Round.PlayHands` | src/game.rs:302-476 | The round is `HandsPlayed`: every settled round is `PlayedOut`; naturals settle with the two-card hands and the original bet, reading no input, and never abort; otherwise the answers are picked in turn, the player's hand takes one card off the top per 1 or 3, in pop order, and the hand went over 21 after a last 1 and stood within 21 after a 2. The stake is doubled exactly on a 3. The dealer's cards come off the top next, by its rule. An abort is explained by `PlayAborts`. A bet is never refused here. `Round.HandsPlayedUnique` shows at most one run of answers and one end satisfy `HandsPlayed`. |
| `Round.DealAndPlay` | src/game.rs:288-476 | After a placed bet: the shoe is the deck, or below 26 cards a permutation of a fresh deck of at least 26 cards. The hands are dealt from its top and played as `HandsPlayed` says, settled or aborted; the bet is never refused here, and a settled round keeps the bet placed. Given the shoe, the answers and the end are unique (`Round.HandsPlayedUnique`). |
| `Round.PlayRound` | src/game.rs:258-476 | One pass of the loop is `RoundPlayed`: with no line left it aborts with NoInput; the bet is refused exactly when `PlaceBet` refuses the line, which is then skipped and changes nothing; after a placed bet the hands are dealt from the shoe and played as `HandsPlayed` says, so the round aborts only for the reasons `PlayAborts` names. Without a placed bet no answer is read and the shoe is the deck. `Round.RoundPlayedUnique` shows one shoe allows only one run of answers and one end. |
| `Round.RoundSettles` | src/game.rs:258-476 | A settled pass placed the bet read on its first line; its stake is the bet or, affordably, twice it; its outcome is `Verdict` and its new wealth the debited wealth plus `Payout` of the stake; its hands and deck are exactly the cards of the shoe; a kept deck loses only its top; and it reads on past its first line. |
| `Round.PlayPass` | src/game.rs:258-476 | One pass of the session from line `next`, recorded with its wealth, deck, line, shoe and answers: the pass holds (`PassHolds`), so it is the round `RoundPlayed` describes, and a settled round holds exactly the shoe's cards, none twice. A pass that did not abort reads on past `next`. `Round.PassUnique` shows a pass is fixed by its wealth, deck, line and shoe. |
| `Round.PassOfRound` | src/game.rs:258-300 | A round played at 0 < wealth < `u32::MAX` from a deck drawn from one fresh deck is a pass that holds; a settled one leaves a deck drawn from one fresh deck and a wealth within u32. |
| `Round.SessionStep` | src/game.rs:249-256 | A session goes on by one pass after a successful save, from the wealth, deck and line the session left. |
| `Round.SessionPasses` | src/game.rs:244-256 | In a session, the i-th pass follows the i-th successful save and holds. The first pass starts from the original wealth at the first line, with a shuffled fresh deck. |
| `Round.SessionPass` | src/game.rs:249-256 | The i-th pass of a session follows the i-th successful save and holds. |
| `Round.SessionFirst` | src/game.rs:244-249 | The first pass of a session starts from the original wealth at the first line, with a shuffled fresh deck. |
| `Round.SessionLinks` | src/game.rs:249-300 | Each pass of a session starts with the wealth and the deck the one before left, and only the last pass may have aborted. |
| `Round.SessionLink` | src/game.rs:249-300 | The (i+1)-th pass starts with the wealth and the deck the i-th left, at the line the i-th stopped at, and the i-th did not abort. |
| `Round.NextRound` | src/game.rs:249-300 | One pass after a successful save: an aborted round ends the session with the wealth unchanged; otherwise the session can go on with the wealth, deck and line the round left, from a later line. The pass recorded is the only one `PassHolds` allows for its wealth, deck, line and shoe (`Round.PassUnique`). |
| `Round.Game` | src/game.rs:244-300 | The whole session returns its trace of passes, which forms a `Session` from the original wealth to the final one (`SessionEnds`). Every pass is played at 0 < wealth < `u32::MAX` after a successful save, on the deck the pass before left (a shuffled fresh deck first), and is the round `RoundPlayed` describes: a refused bet leaves the wealth alone, a settled round follows the ledger equation and holds the shoe's cards, and an abort has one of the reasons `PlayAborts` names or no line left. The session ends Finished exactly when the wealth reaches 0 or `u32::MAX`. SaveFailed means the next save failed. Halted means the last pass aborted with that failure. The name is unchanged. `Round.SessionEndsUnique` shows the trace, the final wealth and the stop are the only ones `SessionEnds` allows, given the first deck and the shoes. |
| `Hand.RawSumSplit` | src/game.rs:110-126 | The raw sum and the ace count of a hand are those of its first k cards plus those of the rest. |
| `Hand.BustStays` | src/game.rs:340 | A hand whose first k cards are already over 21 stays over 21 whatever cards follow. |
| `Dealing.DrawnPrefix` | src/game.rs:143-152 | The first m cards popped are the same however many more are popped after them. |
| `Dealing.TopCuts` | src/game.rs:143-152 | Pops for one hand and then for another create and lose no card, and what is left is the bottom of the deck. |
| `Round.TurnsPlayOut` | src/game.rs:409-476 | A settled end built from a player's turn and a dealer's draws off the deck the turn left is `PlayedOut`. |
| `Round.PlayedOutCards` | src/game.rs:294-476 | A played-out round starts from the dealt hands, holds exactly the cards of the dealt hands and the deck, and leaves the bottom of the deck. |
| `Round.PicksUnique` | src/game.rs:345-385 | From one position, the accepted line picked is unique. |
| `Round.AnsweredPrefix` | src/game.rs:340-407 | Of two records of answers picked in turn, the shorter is the start of the longer. |
| `Round.AnsweredAt` | src/game.rs:340-407 | The i-th answer of a record is the one picked where the answers before it stopped, and the one before it was a 0 or a 1. |
| `Round.HitsPrefix` | src/game.rs:387-400 | The first answers ask for no more cards than all of them. |
| `Round.StayedIn` | src/game.rs:340-400 | When the deck holds the cards the answers ask for and their hand ends within 21, the hand after any first i of them was within 21 and within the deck as well. |
| `Round.HandsPlayedAnswered` | src/game.rs:330-407 | A round without naturals reads its answers in turn from the line after the bet, whether it settles or aborts. |
| `Round.HandBeforeLast` | src/game.rs:340-407 | A hand built off the top of the deck that stayed within 21 at every earlier size, and ends within 21 unless its last answer took a card, was within 21 and within the deck after every run of answers short of the last. |
| `Round.InBeforeLast` | src/game.rs:340-407 | In a round without naturals, the hand was still within 21 and within the deck before each answer read. |
| `Round.TurnOver` | src/game.rs:340-407 | If another answer could be picked after a round's answers, the turn was already over: the last answer was a 2 or a 3, the deck ran out, or the hand went over 21. |
| `Round.NoLongerTurn` | src/game.rs:340-407 | Two runs of the same round without naturals: neither reads more answers than the other. |
| `Round.DealerUnique` | src/game.rs:423-438 | The hit rule fixes the dealer's hand: two hands drawn in pop order off the same deck that both follow it are equal, and so are the decks left. |
| `Round.DealerRanOutHits` | src/game.rs:423-438 | When the dealer would still hit after the whole deck, it hits at every hand it can draw off that deck. |
| `Round.DealerAlike` | src/game.rs:409-438 | Two played-out rounds with the same player's hand leave the same dealer's hand and deck. |
| `Round.PlayedOutAlike` | src/game.rs:409-476 | Two played-out rounds without naturals that took as many player's cards, for the same stake and next line, are equal. |
| `Round.SettledAlike` | src/game.rs:330-476 | Two settled ends of one round without naturals, after the same answers, are equal. |
| `Round.SettledNotAborted` | src/game.rs:330-476 | A round without naturals cannot both settle and abort after the same answers. |
| `Round.AbortsAlike` | src/game.rs:330-476 | Two aborted ends of one round without naturals, after the same answers, abort for the same reason. |
| `Round.NaturalRound` | src/game.rs:302-328 | A round dealt a natural reads no answer and settles at once with the dealt hands, the bet, the verdict and its payout. |
| `Round.HandsPlayedUnique` | src/game.rs:302-476 | The hands of a round are played in one way only: from the same lines, wealth, bet, dealt hands and deck, the answers and the end are the same. |
| `Round.RoundPlayedUnique` | src/game.rs:258-476 | A pass is played in one way only: from the same lines, wealth, deck, line and shoe, the answers and the end are the same. |
| `Round.PassUnique` | src/game.rs:258-476 | Two passes that hold and start with the same wealth, deck, line and shoe are the same pass. |
| `Round.SessionPrefix` | src/game.rs:249-256 | Every proper prefix of a session is a session, ending with the wealth the next pass starts with. |
| `Round.PassesAgree` | src/game.rs:244-300 | Two sessions with the same first deck and the same shoes up to pass i have the same i-th pass. |
| `Round.PassAgrees` | src/game.rs:249-300 | The i-th passes of two sessions that start with the same wealth, deck, line and shoe are equal. |
| `Round.SessionsAgree` | src/game.rs:244-300 | Two sessions of as many passes, with the same first deck and shoes, are the same and leave the same wealth. |
| `Round.SessionNotCut` | src/game.rs:249-256 | An ended session is no proper prefix of another session with the same first deck and shoes. |
| `Round.SessionEndsUnique` | src/game.rs:244-300 | A session ends in one way only: with the same first deck and the same shoes, the passes, the final wealth and the reason for stopping are the same. |
| `Round.Player.constructor` | src/game.rs:40-43 | A player record holds the given name and wealth. |
| `Menu.NoOption` | src/input.rs:21 | The message is "No option for number " followed by at least one decimal digit, the last being the number's last digit. |
| `Menu.MainMenuTryFrom` | src/input.rs:16-23 | The result is Ok exactly for 1..3, mapping 1 to NewGame, 2 to Continue and 3 to Exit. Otherwise it is Err with "No option for number n". |
| `Menu.InGameTryFrom` | src/input.rs:41-48 | The result is Ok exactly for 1..3, mapping 1 to Hit, 2 to Stand and 3 to DoubleDown. Otherwise it is Err with "No option for number n". |
| `Menu.MainMenuRoundTrip` | src/input.rs:17-20 | Every main-menu choice is decoded from its own number. |
| `Menu.InGameRoundTrip` | src/input.rs:42-45 | Every action is decoded from its own number. |
| `Menu.MainMenuInjective` | src/input.rs:17-20 | Distinct accepted numbers give distinct main-menu choices. |
| `Menu.InGameInjective` | src/input.rs:42-45 | Distinct accepted numbers give distinct actions. |
| `Menu.DecodersInjective` | src/input.rs:17-22 | Two numbers decode to the same result, errors included, only when they are equal. |
| `Menu.OutOfRangeRejected` | src/input.rs:21 | 0 and 4..255 are rejected by both decoders. The message for 0 is "No option for number 0". |
| `Menu.LargestRejected` | src/input.rs:21 | Both decoders reject 255 with "No option for number 255". |
| `Menu.Decimal` | src/input.rs:46 | The decimal spelling is non-empty. It has one digit exactly below 10, and it ends in the last digit. |
| `Menu.DecimalDigits` | src/input.rs:46 | The decimal spelling is all digits. |
| `Menu.DecimalInjective` | src/input.rs:46 | Different numbers are spelt differently. |
| `Menu.NoOptionNamesNumber` | src/input.rs:21 | Different numbers give different error messages. |

## Left out

- `save` and `load` (src/game.rs:18-36, src/save.rs), and `new_game`/`load_game` (src/game.rs:173-241): these do file I/O through bincode and look up the OS user name. Whether each save succeeds is a parameter of `Round.Game`. The final save after the loop is not modelled.
- Printing, terminal escapes, `print_game_state` and every `sleep`: presentation only.
- src/main.rs and src/utils.rs: the menu loop and the terminal helpers. The decoders it calls are modelled in `Menu`, but the loop that reads the menu number is not.
- Reading standard input: input lines arrive already parsed. When the lines run out at the bet prompt, or no remaining line is accepted at a prompt of the player's turn, the model stops with `Halted(NoInput)`. At end of input the program would instead re-prompt forever, because an empty line never parses. A failing `read_line` panics, and that panic is not modelled.
- Randomness: `thread_rng` is replaced by the draw parameters. `Deck.ShuffleDeck` is a Fisher–Yates loop over those draws, of which only the permutation property is claimed. Nothing is said about the distribution.
- `Dealing.DealCards`: the `panic!` on an empty deck becomes the `DeckEmpty` result, and then `Aborted(DeckExhausted)` for the session. The model does not prove that a refilled deck of at least 26 cards always suffices.
- `Round.Game`: when a round aborts, the session ends without storing the wealth left after the bet was debited. The program would have panicked or re-prompted there.
- `Hand.CardsValue`: the `u8` total is modelled unbounded. The branch that skips a rank that does not parse is unreachable, because ranks "2".."9" always parse.
- Overflow: `Round.Showdown`, `Round.PlayTurns`, `Round.PlayHands`, `Round.DealerPhase`, `Round.DealAndPlay`, `Round.PlayRound`, `Round.RoundSettles`, `Round.PlayPass`, `Round.NextRound` and `Round.Game` credit winnings with the corrected, saturating `Ledger.Credit`, not with the wrapping sum the code computes. The code's wrapping credit is `Ledger.CreditAsWritten`, and its discrepancy is shown under Findings. Debits (`Ledger.Debit`) and the prompt counter (`Round.PromptIndex`) wrap as in a release build. A debug build would instead panic at the credit overflow and at the 256th entry at one action prompt.

## Findings

| source | as written | input that shows it | evidently intended | confidence | as-written member | corrected member |
|---|---|---|---|---|---|---|
| src/game.rs:442 (also :314 and :462) | The doubled bet is added to the wealth in u32 arithmetic, and only then clamped to `u32::MAX` with `cmp::min`. In a release build the sum has already wrapped, so the clamp does nothing. | Wealth 4,000,000,000, bet 4,000,000,000, player wins. The credit is 3,705,032,704, less than the bet. | The credit saturates at `u32::MAX`, which also ends the session as "too much money". | not executed | `Ledger.CreditAsWritten`, `Ledger.WinOverflowLoses` | `Ledger.Credit` |
