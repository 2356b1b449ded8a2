# A verified model of the Pace Poker table engine

Pace Poker runs no-limit and fixed-limit Texas Hold'em tables as event-sourced games. A player's
command is validated against the table's state, turned into an event, and followed by everything the
server does on its own — time-outs, streets, showdowns, sit-outs, the next hand — until the table waits
for a player again. A reducer folds events into states. A session per table stamps the events and
appends them to a log; the lobby appends joins and leaves to the same log and moves chips between the
users' wallets and the table; step reports credit the wallets.

This project models that machinery in Dafny and proves what it keeps. The proofs fall into these groups:

- **Cards and hands** (`Cards`, `RankBits`, `Eval`, `Ranking`, `BestHand`, `Dealing`, `Decks`): the shuffle
  as a bijection, the packed hand rank, the five-card evaluator, which hand beats which, the search for the
  best five, where every card on the table came from, and exactly when a replaced dealer repeats one.
- **The betting state machine** (`Table`, `Rules`, `Lifecycle`, `Betting`, `Posting`, `Streets`,
  `Batches`, `Rest`, `Runs`, `Leavers`, `Termination`, `Progress`): what every step keeps, why a lifecycle
  run comes to rest, how long a hand can last, and exactly when it can go on.
- **The rules of play** (`Rules`, `Actions`, `Turns`, `NewHands`, `Button`): exactly which commands are
  legal and what they leave to the others, who acts in which order and who is asked, who deals and posts
  what, and how the button goes round.
- **Chips** (`Pots`, `Chips`, `Showdown`, `Payouts`, `Conservation`, `Contention`, `Outcomes`): side pots as
  sums of minima, who wins what, and exactly when chips are conserved.
- **The imperative code** (`Reducer`, `Settling`, `Driver`, `Handler`): the reducer, the showdown, the
  lifecycle and the command handler with their loops and updates in place, each proved against the
  specification the results above are about.
- **Log, sessions, lobby, deposits** (`Journal`, `Storage`, `Replays`, `Session`, `Seating`, `Lobby`,
  `LobbyService`, `Accounts`, `Races`, `Deposits`): optimistic concurrency on one unique key, replay,
  interleaved writers, wallet transfers, the books over whole histories, and the deposit ledger.

`Collections` holds sums, filtered sequences and sorting.

## Reading the model

The state of a table is a value of type `Table.Game`; `Table.Effect` says what an event does to it,
`Lifecycle.Advance` what the server does next. What the code leaves open — random draws, hand ids, the
order in which Go visits a map, how an unstable sort breaks ties — is a parameter (`Luck`) the results
quantify over. `Reducer.TableState` is the same state as an object, updated field by field. Integers are
unbounded where the program uses 64 bits; the packed hand rank alone is modelled bit by bit.

`Runs.IsRun` is any sequence of commands (legal or not), server batches, joins at any time and leaves
between hands; `Leavers.IsOpenRun` and `Dealing.IsSession` have leaves at any time, too.
`Betting.TableOk` is the betting invariant, `Leavers.TableFair` what is left of it when players leave.
`Lobby.IsHistory` is any interleaving of the database operations of any number of lobby and session
writers.

Some promises of the code hold only under a condition. Each such case is stated with its exact condition
and shown to fail without it, mostly on a concrete state or log:

- **Antes.** Blinds are capped by the stack before antes (internal/engine/advance.go:162-193), so a stack
  can go below zero: `Conservation.NewHandKeepsTableIff`, `Outcomes.AntesOverdraw`.
- **Rake.** It is computed on the whole pot but taken from the main pot only
  (internal/engine/advance.go:359-367): `Showdown.ConservedIffRakeFits`, `Outcomes.RakeOverMainPot`.
- **Pots nobody can win.** Pots are lost when whoever put in the most has left the contest:
  `Showdown.ConservedIffTopContributorLive`, `Outcomes.LateSittersLoseThePot`. Without antes and without
  players who sit in or join during a hand this cannot happen: `Contention.RunConserves`.
- **All-in players.** The comment at internal/engine/apply.go:576 promises every active player, not folded
  and not all-in, on a new street. The code lists everyone sitting in with chips, folded or not; the model
  follows the code. So not every hand ends: with nobody live the hand is stuck (`Outcomes.AllInStalls`),
  and a single caller of an all-in takes the pot unseen (`Outcomes.CallerTakesAllIn`).
  `Outcomes.NextStreetOutcome` tells the cases apart, `Progress.HandGoesOnIff` says when a hand can go on,
  and `Termination.HandIsFinite` for how many steps at most.
- **Short all-ins.** A raise must be at least the size of the previous raise, says the comment at
  internal/engine/validate.go:136-138. After an all-in that raises by less, the code takes the smaller
  amount for the previous raise, so the next minimum falls to it (or to the big blind):
  `Actions.RaiseAfterAllInIff`.
- **Repeated command ids.** The stored event is applied to the live state again:
  `Replays.RepeatKeepsReplayIff`, `Replays.RepeatedCallPaysTwice`.
- **Reloads and failed writes.** A join or leave closes the session, and the next command deals on from a
  new deck in order; a failed write leaves the state as it was, but not the dealer. Either can bring a card
  twice: `Decks.JoinRepeatsCards`, `Decks.FailedWriteRepeatsCards`, and exactly when:
  `Decks.HandStaysDistinctIff`, with `Decks.LobbyReloadDistinctIff` and `Decks.FailedWriteIsHarmless`.
- **Stale appends.** A session computes from the state in memory and reads the end of the log afterwards, so
  a lobby commit in between goes unseen: `Races.StaleAppendLosesPot`. Without one the books balance:
  `Accounts.TableAccounts`.
- **Leaving.** A leaver's fold ends the turn of whoever was being asked, who is then asked again:
  `Lobby.LeavingFoldsFirst`. The append and the wallet credit are two commits: `Lobby.LostCredit`.
- **Report ids.** A second report under a used id is ignored whatever it says:
  `Deposits.DepositsAreWorth`, `Deposits.ReusedIdOrderMatters`.

## Model

| member | source | states |
|---|---|---|
| Cards.ShuffleIsBijection | internal/deck/deck.go:36-48 | For any deck of distinct cards, every order of the deck arises from exactly one sequence of draws, draw i lying in 0..i; equally likely draws therefore give equally likely orders. |
| Cards.ShuffleKeepsCards | internal/deck/deck.go:36-48 | A shuffle neither loses nor duplicates a card, whatever is drawn. |
| Cards.Deck.constructor | internal/deck/deck.go:27-33 | A new deck holds all 52 cards in order, none drawn. |
| Cards.Deck.CryptoShuffle | internal/deck/deck.go:36-48 | The in-place swap loop leaves the order the shuffle function gives for its draws, and restarts drawing from the top. |
| Cards.Deck.Draw | internal/deck/deck.go:51-58 | Draws the next card and advances; fails exactly when the deck is used up, changing nothing. |
| Cards.CryptoDealer.Shuffle | internal/engine/dealer.go:31-34 | A new hand gets a new deck of 52 different cards, none dealt. |
| Cards.CryptoDealer.Deal | internal/engine/dealer.go:36-36 | Hands out the next card of the deck's order. |
| Cards.CryptoDealer.Burn | internal/engine/dealer.go:38-41 | Skips exactly one card. |
| RankBits.FieldsReadBack | internal/engine/eval.go:32-40 | Each four-bit field of the packed word can be read back: the shifted fields do not overlap. |
| RankBits.FirstFieldDecides | internal/engine/eval.go:23-40 | Two packed words compare by the first field in which they differ. |
| RankBits.WordsCompareLikeRanks | internal/engine/eval.go:23-40 | For the words that shifting and or-ing build from any two ranks: one unsigned comparison of the words is one comparison of the ranks as numbers, and that is comparing (category, tiebreakers) lexicographically; equal words mean equal ranks. |
| Eval.PackedOrderIsLexicographic | internal/engine/eval.go:23-40 | Comparing packed ranks is comparing (category, tiebreakers) lexicographically, and equal words mean equal category and tiebreakers; which category beats which is `Ranking.BetterKindWins`. |
| Eval.AppraiseIgnoresOrder | internal/engine/eval.go:129-222 | Five cards are worth the same in every order: category from flush, five-in-a-row (or the five-high wheel) and group counts. |
| Eval.DetectStraight | internal/engine/eval.go:226-239 | On descending ranks, finds a straight exactly when some run of five (or the wheel) is there, and names its top. |
| Eval.CountRanks | internal/engine/eval.go:142-150 | The groups list every rank of the hand once with its count, and no other. |
| Eval.SpellTiebreak | internal/engine/eval.go:161-171 | Writes each group's rank as often as it counts, group by group. |
| Eval.GroupsSpellTiebreak | internal/engine/eval.go:151-171 | Groups sorted by count, then rank, spell the ranks of the hand ordered by how often they occur, then by rank. |
| Eval.Eval5 | internal/engine/eval.go:129-222 | The frequency table, sorted groups, tiebreaker loop and category switch compute the declarative score of the five cards, whose order the `Ranking` rows give. |
| Ranking.BetterKindWins | internal/engine/eval.go:10-22 | Told by the cards alone, for all five-card hands: one pair beats no pair, two pairs one pair, three of a kind two pairs, a straight three of a kind, a flush a straight, a full house a flush, four of a kind a full house, and a straight flush four of a kind. |
| Ranking.HigherStraightWins | internal/engine/eval.go:174-199 | Of two straights, or two straight flushes, the one with the higher top wins, the wheel being the lowest; equal tops tie. |
| Ranking.TiesCompareByGroups | internal/engine/eval.go:151-222 | Two hands of five different cards, of the same kind and no straights, compare by their ranks in order of frequency, then height: the first difference decides, and without one they tie. |
| Ranking.HandsInOrder | internal/engine/eval.go:10-40 | Ten concrete hands, from a seven-high to a royal flush, score in strictly ascending order. |
| BestHand.NextIndex | internal/engine/eval.go:111-122 | Steps the index array in place to the next five-index combination, skipping none, and stops exactly after the last. |
| BestHand.FindBest | internal/engine/eval.go:79-125 | For a pool of any size, visits every combination and returns the best score of any five cards, together with five cards of the pool that have it; a short pool is scored as padded. |
| BestHand.MoreCardsNeverHurt | internal/engine/eval.go:79-125 | Adding cards to a pool never lowers its best rank. |
| BestHand.PoolOrderIrrelevant | internal/engine/eval.go:79-125 | The best rank does not depend on the order of the pool. |
| Pots.Contributors | internal/engine/pot.go:36-50 | Whatever order the map is visited in, the sorted entries are exactly the players with chips in the pot, ascending, each once. |
| Pots.EligibleInOrder | internal/engine/pot.go:52-80 | Lists exactly the contributors not folded, those of the action order before all others and in its order. |
| Pots.RawLevels | internal/engine/pot.go:82-97 | The level loop with its tie skipping yields one pot per distinct commitment level. |
| Pots.MergePots | internal/engine/pot.go:99-112 | Neighbouring pots with the same eligible list are merged by growing the last one. |
| Pots.ComputePots | internal/engine/pot.go:29-113 | Returns the pots of some ranking of the contributors, to which the results below apply. |
| Pots.PotsHoldCommitments | internal/engine/pot.go:29-113 | The pots add up to everything committed. |
| Pots.WinnableIsMatched | internal/engine/pot.go:29-113 | For a contributor i not folded, the pots that list i as eligible total the sum over all contributors j of min(c_i, c_j). |
| Pots.PotsShrink | internal/engine/pot.go:36-112 | Eligible sets shrink strictly from pot to pot, every pot holds chips, and only contributors not folded are eligible. |
| Pots.PotsIgnoreTies | internal/engine/pot.go:36-112 | Amounts and eligible sets do not depend on map order or on how the sort breaks ties. |
| Rules.CountPlayersInHand | internal/engine/validate_actions.go:194-201 | Counts exactly the players neither folded nor sitting out. |
| Rules.CheckRaise | internal/engine/validate_actions.go:114-168 | The guard chain with its scan of the closed players gives the verdict of the specification, and lets a raise through exactly under the conditions of `Rules.RaiseLegalIff`. |
| Rules.RaiseLegalIff | internal/engine/validate_actions.go:114-168 | A raise to an amount is legal if and only if it is the actor's turn, a bet stands, raising is not closed to the actor, the amount exceeds the highest bet and the stack covers it, it is all-in or exceeds the highest bet by at least the big blind and at least the last raise, and under fixed limits the street has a raise left or the cap is lifted for two players. |
| Rules.BetLegalIff | internal/engine/validate_actions.go:76-112 | A bet is legal if and only if it is the actor's turn, nobody has bet, and it is positive, covered, and at least the big blind or the whole stack. |
| Rules.CallLegalIff | internal/engine/validate_actions.go:48-74 | A call is legal if and only if it is the actor's turn, a bet is unmatched, chips are left and a stated amount is exactly what is missing or the whole smaller stack; that amount is what is called. |
| Rules.CheckLegalIff | internal/engine/validate_actions.go:25-46 | A check is legal if and only if it is the actor's turn and nothing is missing, or no chips are left. |
| Actions.AnsweringKeepsBet | internal/engine/apply.go:272-307 | A legal fold or check costs nothing and a legal call exactly what is missing, capped at the stack; highest bet, last raise and the right to raise stay, the actor alone leaves the pending players, and nobody else is touched. |
| Actions.RaisingReopens | internal/engine/apply.go:309-359 | After a legal bet or raise to an amount the actor has bet that amount in all, it is the highest bet, what it adds is the last raise, exactly the others in the order who are neither folded nor all-in are pending, and everyone may raise. |
| Actions.AllInReopensIff | internal/engine/apply.go:361-412 | An all-in for no more than the highest bet answers it. One for more asks exactly the others who can still bet, and closes raising for exactly those of them who had nothing left to answer when it adds less than the last raise, for nobody otherwise. |
| Actions.RaiseAfterAllInIff | internal/engine/validate.go:136-144 | Who is asked after an all-in over the highest bet may raise if and only if it was no short raise or they still had the earlier bet to answer; and, unless all-in, by at least the big blind and what the all-in added, even when that was short of the last raise. |
| Betting.LegalActionActs | internal/engine/validate_actions.go:5-191 | Every legal action moves between 0 and all of the acting player's stack from stack to bet, commitment and pot, reopens action for the others exactly when it raises the highest bet, and moves some chips unless it is a fold or check. |
| Betting.TimeoutActs | internal/engine/advance.go:90-118 | The default action of a time-out is an action that moves no chips. |
| Betting.ActsKeepsHand | internal/engine/apply.go:272-412 | Every action keeps the betting invariant of the hand. |
| Betting.CommandKeepsTable | internal/engine/handler.go:58-111 | Any command, legal or refused, keeps the betting invariant and the number of chips. |
| Streets.StreetIsNew | internal/engine/apply.go:558-580 | A street clears all bets and asks everyone sitting in with chips, folded or not and without the all-in players, from the player after the dealer round. |
| Turns.BigBlindActsLast | internal/engine/apply.go:584-603 | After the start of a hand everyone sitting in with chips is to act, once round the table clockwise, the big blind last (or the dealer, when the big blind is not among them). |
| Turns.DealerActsLast | internal/engine/apply.go:558-613 | After flop, turn and river everyone sitting in with chips is to act, once round the table clockwise, the dealer last; without the dealer, from the lowest seat. |
| Turns.FirstPendingIsAsked | internal/engine/advance.go:445-461 | The server asks the first pending player, sets the deadline to now plus the configured limit, if any, and changes nothing else. |
| Turns.TimeIsUpIff | internal/engine/advance.go:61-66 | The player asked is timed out if and only if there is a limit and more than it has passed since. |
| Turns.TimeoutFoldsIff | internal/engine/advance.go:90-118 | A time-out folds the player if and only if they had a bet to match; no chips move, nobody else changes, and the player is no longer pending or asked. |
| Posting.PlayPosts | internal/engine/apply.go:156-223 | Antes, blinds and cards take from each stack exactly what was posted, put it into commitment and pot, and keep bets below the highest bet. |
| Posting.NewHandDealt | internal/engine/advance.go:123-216 | The events of a new hand leave everybody in, blinds and antes committed, all active players to act in preflop order; without antes all that is committed is bet. |
| NewHands.ServerDealsHand | internal/engine/advance.go:126-216 | The events of a new hand one by one: among those ready, in seat order, the dealer is the first seated above the last one, or the lowest; with three or more the next player posts the small and the one after it the big blind, heads-up the dealer the small and the other the big one; antes from everybody, amounts capped by the stack, two cards each in seat order. |
| NewHands.BlindsOpenBetting | internal/engine/apply.go:156-191 | Once the hand is dealt the blinds are the only bets, the higher one is the highest bet, the last raise is what the big blind posted, and nobody has raised or is closed to raising. |
| NewHands.HandStartsIff | internal/engine/advance.go:26-55 | The server deals a hand if and only if none is on, the table is waiting or active, nobody broke is sitting in, and at least two players and at least the configured number sit in with chips. |
| NewHands.BrokeSitOut | internal/engine/advance.go:33-44 | When somebody broke is sitting in, the server's batch sits out exactly the broke and changes nothing else. |
| Button.ButtonGoesClockwise | internal/engine/advance.go:480-490 | From one hand to the next, whatever is played and whoever joins or leaves in between, the dealer is the next player clockwise from the last dealer's seat among those ready by then. |
| Rest.BatchBringsRest | internal/engine/advance.go:18-118 | Every batch the server produces lowers the stage of the table. |
| Rest.RestIsStageZero | internal/engine/advance.go:18-86 | The server has no batch exactly at stage 0. |
| Rest.LifecycleIsShort | internal/engine/handler.go:36-54 | A lifecycle run has at most six batches from any state, so its cap of 64 never cuts one short. |
| Conservation.BatchConservesIff | internal/engine/advance.go:18-394 | Every batch keeps the betting invariant if and only if a new hand's blinds cover the antes; it keeps stacks + pot + rake if and only if a showdown, when it is one, pays fully. |
| Conservation.NewHandKeepsTableIff | internal/engine/advance.go:162-193 | A new hand leaves no stack below zero if and only if both blinds' stacks cover antes and blind together; it never creates or loses chips. |
| Conservation.UncontestedConserves | internal/engine/advance.go:283-315 | An uncontested pot goes to the last player left, and only the rake leaves the table. |
| Payouts.LastPlayerTakesPot | internal/engine/advance.go:283-315 | When everybody else has folded and nobody is out of time, the server's next batch pays the pot less the rake to the one player left, changes nobody else, and ends and counts the hand. |
| Conservation.ShowdownKeepsTable | internal/engine/advance.go:319-394 | A showdown ends the hand with no stack below zero. |
| Showdown.WinnersAreBest | internal/engine/advance.go:399-424 | When an eligible player is evaluated, the winners are exactly the eligible, evaluated players p such that every eligible, evaluated q has a rank of at most p's; when none is, the one winner, if any, is the first eligible among the contending players in action order. |
| Payouts.RankedByBestFive | internal/engine/advance.go:326-336 | At the river exactly the players of the order who are seated, not folded and hold cards are evaluated, and each one's rank is the greatest score of any five of their two hole cards and the five on the board. |
| Payouts.ShowdownPaysBestHands | internal/engine/advance.go:356-388 | Every award at a showdown pays one pot of the hand, the main pot less the rake, to exactly the eligible players whose hands no eligible hand beats, or to the first eligible in action order when none is evaluated. |
| Payouts.OddChipsGoFirst | internal/engine/pot.go:52-80 | The winners of a pot are listed in action order, so the one who gets the odd chips is the one who acts first. |
| Showdown.EachIsPaid | internal/engine/apply.go:483-503 | Each winner of a pot gets the amount divided by their number, rounded down, the first also the remainder, and nobody else anything. |
| Showdown.NoWinnerIff | internal/engine/advance.go:399-424 | A pot has no winner exactly when no eligible player is still contending. |
| Showdown.SplitIsExact | internal/engine/apply.go:483-503 | Floor shares plus the remainder pay out exactly the pot. |
| Showdown.PlaySettle | internal/engine/apply.go:468-521 | A settlement's events pay every payable pot after rake to its winners, take the rake and end the hand; nothing else at the table changes. |
| Showdown.ConservedIffTopContributorLive | internal/engine/advance.go:319-394 | When the rake fits into the main pot, a showdown keeps every chip if and only if somebody still contending put in as much as anybody, or the rake takes all. |
| Showdown.ConservedIffRakeFits | internal/engine/advance.go:359-367 | With such a player, a showdown keeps every chip if and only if the rake fits into the main pot. |
| Showdown.BalancedIffPaysFully | internal/engine/advance.go:319-394 | The exact condition for a showdown to keep every chip in all remaining cases too. |
| Showdown.WinningsAreMatched | internal/engine/advance.go:369-388 | Nobody loses stack at a showdown, nobody gains more than the sum over all j of min(c_i, c_j), and folded players gain nothing. |
| Runs.RunKeepsTable | internal/engine/apply.go:12-544 | Over any run of commands, batches, joins at any time and leaves between hands, new hands finding their antes covered, every state satisfies the betting invariant. |
| Runs.ReachableBetting | internal/engine/apply.go:272-412 | In every reachable state of a new table, the pending players are a duplicate-free subsequence of the action order, the acting player is pending, 0 <= bet <= highest bet, and whoever is not pending has folded, is all-in or has matched. |
| Runs.StreetClosesMatched | internal/engine/advance.go:74-77 | A betting round closes only when everybody in the order who could still call has matched. |
| Leavers.OpenRunKeepsFair | internal/engine/apply.go:12-544 | Over any run with joins and leaves at any time, new hands finding their antes covered, every state satisfies the invariant that survives leaving: no stack below zero, bets within the highest, pending players from the order, the pot at least what those still there committed. |
| Leavers.OpenBetting | internal/engine/apply.go:272-412 | In every reachable state, leaves at any time: pending players are a duplicate-free subsequence of the order, the acting player is pending, 0 <= bet <= highest bet, no stack below zero. |
| Leavers.OpenRunKeepsLedger | internal/engine/apply.go:289-412 | While a hand lasts, joins and leaves included, stack plus commitment of everybody who stays is constant, and the pot is the commitments of those there plus what leavers had committed. |
| Runs.DealKeepsLedger | internal/engine/apply.go:126-191 | The blinds and antes of a new hand stay on the ledger of whoever paid them. |
| Contention.ContendingHasTop | internal/engine/advance.go:270-280 | Without antes and latecomers, at every showdown somebody contending has put in as much as anybody. |
| Contention.MoveConserves | internal/engine/handler.go:17-54 | One step without latecomers accounts for every chip. |
| Contention.RunConserves | internal/engine/handler.go:17-54 | Over whole runs of an ante-free table without latecomers and with rakes that fit, the chips on the table change by buy-ins, cash-outs and rake alone. |
| Termination.HandIsFinite | internal/engine/validate_actions.go:48-191 | However the players bet and whoever joins or leaves, while a hand lasts no more actions, time-outs, streets and turns are taken in it than its rank says — chips, streets left, players to act, turn unset — plus a fixed amount for every join and leave. |
| Termination.MoveRank | internal/engine/handler.go:68-111 | No step of a hand raises the rank by more than the fixed amount of a join or leave, and every accepted action or batch lowers it. |
| Progress.HandGoesOnIff | internal/engine/advance.go:58-118 | In a hand, a step that lowers the rank is possible if and only if somebody is left in the order and the player asked, if any, can act or has a deadline. |
| Progress.HandAtRest | internal/engine/advance.go:58-86 | In every reachable state, joins and leaves at any time, where the server has nothing to do in a hand: a pending player has been asked with two or more left in, or an identified earlier step — a street with nobody live, or the last player's leave — left nobody, and the hand has not moved since. |
| Progress.MoveContest | internal/engine/apply.go:272-412 | Players are asked only while two or more are left; only a street with nobody live or the last player's leave stalls a hand; a stalled hand does not move until somebody who left it comes back. |
| Outcomes.NextStreetOutcome | internal/engine/apply.go:576-579 | When a round closes before the river: two or more live players and play goes on; one, and it takes the pot at once; none, and the hand stalls. |
| Payouts.StreetsFollow | internal/engine/advance.go:220-280 | Flop, turn and river follow in this order, each puts its cards on the board and keeps those there, and leaves no bet, no raise and nobody closed to raising. |
| Outcomes.NobodyLiveStalls | internal/engine/apply.go:576-579 | A stalled hand has no further batch at any time, and every betting command is refused. |
| Outcomes.AllInStalls | internal/engine/apply.go:576-579 | Both players all-in before the flop: after the flop the hand is stuck for good with the chips in the pot. |
| Outcomes.CallerTakesAllIn | internal/engine/apply.go:576-579 | One player all-in, called by one with chips left: after the flop the caller takes the whole pot without a showdown. |
| Outcomes.ActingPlayerCanActIff | internal/engine/validate.go:109-120 | The player whose turn it is has a legal action if and only if not folded, not all-in and not sitting out. |
| Outcomes.LateSittersLoseThePot | internal/engine/advance.go:369-377 | A concrete state where only late sitters are left loses the pot. |
| Outcomes.RakeOverMainPot | internal/engine/advance.go:359-367 | A concrete state where the rake exceeds the main pot does not balance. |
| Outcomes.AntesOverdraw | internal/engine/advance.go:162-193 | A concrete table where antes overdraw a stack. |
| Dealing.SessionCardsDistinct | internal/engine/advance.go:196-280 | Within a session started between hands — commands and time-outs at any time, joins and leaves between hands — no card is twice among all hole and board cards of a hand. |
| Dealing.DeckSuffices | internal/engine/advance.go:218-268 | In every state of a session where at most n players are dealt in at a time and 2n + 8 <= 52, the dealer has the cards for whatever the server does next, at any time, also when joins and leaves reload the table in the middle of a hand. |
| Dealing.SessionKeepsCards | internal/engine/advance.go:144-280 | In every state of a session whose joins and leaves come between hands all cards on the table come from different positions of one shuffled deck, burns skipped. |
| Decks.HandStaysDistinctIff | internal/engine/advance.go:218-268 | A hand without a double card, played on in any way with any dealer of different cards: no card comes twice if and only if none of those the dealer puts on the board, burns skipped, is on the table. |
| Decks.LobbyReloadDistinctIff | internal/engine/router.go:181-193 | A join or leave during a hand makes the next command load the table with a deck in order: from then on no card comes twice if and only if none of 1, 2, 3 (flop), 5 (turn), 7 (river) — or 1, 3 after the flop, 1 after the turn — is on the table. |
| Decks.JoinRepeatsCards | internal/server/server.go:149-150 | A concrete hand in which a third player's join makes the flop show a card somebody holds. |
| Decks.FailedWriteIsHarmless | internal/engine/session.go:278-299 | After a failed write whose run started no new hand, no card comes twice however the hand is played on. |
| Decks.FailedWriteRepeatsCards | internal/engine/session.go:278-299 | A concrete hand: a fold whose run deals the next hand is not stored, the hand goes on, and the flop shows a card somebody holds. |
| Reducer.RemoveId | internal/engine/apply.go:697-704 | Removes exactly the given id and keeps the order. |
| Reducer.Rotate | internal/engine/apply.go:656-665 | Fills a list from any start, taken modulo its length, wrapping around; an empty list stays empty. |
| Reducer.RotatePast | internal/engine/apply.go:643-653 | For distinct ids with the target at k, the result has the same length, holds ids[(k + 1 + i) mod n] at i, and ends with the target; a list without the target is left alone. |
| Reducer.SeatedActive | internal/engine/apply.go:615-640 | Lists everyone sitting in with chips, each once, in ascending seat order, whatever order the map is visited in. |
| Reducer.OrderPreflop | internal/engine/apply.go:584-603 | The seated players turned so that the big blind comes last, or the dealer when the big blind is not listed. |
| Reducer.TableState.Others | internal/engine/apply.go:669-685 | Lists the players of the order who can still bet, except one. |
| Reducer.TableState.StartHand | internal/engine/apply.go:126-154 | Resets every player and sets up the hand. |
| Reducer.TableState.ResetStreet | internal/engine/apply.go:558-580 | Resets the street as the specification says. |
| Reducer.TableState.PostBlind | internal/engine/apply.go:156-178 | Posts a blind field by field. |
| Reducer.TableState.CallWith | internal/engine/apply.go:289-307 | A call, field by field. |
| Reducer.TableState.OpenWith | internal/engine/apply.go:309-333 | A bet, field by field. |
| Reducer.TableState.RaiseWith | internal/engine/apply.go:335-359 | A raise, field by field. |
| Reducer.TableState.ShoveTo | internal/engine/apply.go:361-412 | An all-in, full or below the minimum raise. |
| Reducer.TableState.AlreadyActed | internal/engine/apply.go:387-401 | After an all-in below the minimum raise, closes action for exactly the others who were not pending. |
| Reducer.TableState.AwardPot | internal/engine/apply.go:483-503 | Pays shares in turn, the remainder to the first winner. |
| Reducer.TableState.EndBettingRound | internal/engine/apply.go:453-466 | Clears the round. |
| Reducer.Apply | internal/engine/apply.go:12-544 | Clones, updates step by step and returns the state the specification gives; the input is not touched. |
| Settling.NonFoldedIds | internal/engine/advance.go:508-519 | Exactly the players of the order who are seated and not folded, in its order. |
| Settling.PotWinners | internal/engine/advance.go:399-424 | One pass over the eligible players finds exactly those whose rank no evaluated eligible player's exceeds, with the first eligible in order as fallback when nobody is evaluated. |
| Settling.FirstEligibleInOrder | internal/engine/pot.go:129-144 | The first contending player of the order who is eligible. |
| Settling.Evaluate | internal/engine/advance.go:326-336 | Ranks the best hand of everyone left who holds cards. |
| Settling.ComputeRake | internal/engine/pot.go:117-126 | The basis-point share of the pot rounded down, or the cap when that is less: never negative, never above the cap, never above the pot at rates up to 10000; 0 for a rate or pot of 0 or less. |
| Settling.EndHandShowdown | internal/engine/advance.go:319-394 | Produces announcement, side pots, rake, awards and end of the hand for some ranking of the contributors. |
| Driver.SitOutBusted | internal/engine/advance.go:33-44 | Sits out exactly the broke players, in whatever order the map is visited. |
| Driver.NewDealerIdx | internal/engine/advance.go:480-490 | The first active player seated above the last dealer; the first of all for the first hand and when nobody sits higher. |
| Driver.StartNewHand | internal/engine/advance.go:126-216 | Events of a new hand as `NewHands.ServerDealsHand` lists them, with cards off a newly shuffled deck; fails exactly when 2n exceeds 52. |
| Driver.AdvanceStreet | internal/engine/advance.go:220-280 | Burns and deals the next street or shows down; fails exactly when the deck is short. |
| Driver.AdvanceIdle | internal/engine/advance.go:26-55 | Between hands: sit-outs, then a hand when enough players are left. |
| Driver.AdvanceHand | internal/engine/advance.go:58-86 | Within a hand: time-out, lone survivor, street, waiting, next turn, in this order. |
| Driver.AdvanceTable | internal/engine/advance.go:18-23 | Returns a batch the specification allows, its cards fed by the dealer; fails exactly when a deal or street finds too few cards. |
| Handler.ApplyAll | internal/engine/apply.go:547-552 | Applies events in order. |
| Handler.RunAdvance | internal/engine/handler.go:38-54 | Runs batches until nothing is left to do, at most six of them, their cards fed by the dealer one after another; fails only when a batch finds too few cards, and never with at most 22 players and a dealer that dealt what is on the table. |
| Handler.HandleCommand | internal/engine/handler.go:17-34 | Returns the command's event followed by a lifecycle run to rest; fails only for want of cards, and never with at most 22 players and a dealer that dealt what is on the table, which still holds afterwards. |
| Handler.StockLasts | internal/engine/handler.go:38-54 | From a state with at most 22 players whose cards came from the dealer, no lifecycle run comes to a batch it has no cards for. |
| Handler.HandleCommandConserves | internal/engine/handler.go:17-54 | The whole event list of a command, streets, showdown and next hand included, keeps the betting invariant — no stack below zero — and stacks + pot + rake, when its hands start covered and its showdowns pay fully. |
| Accounts.CommandConserves | internal/engine/handler.go:17-54 | At an ante-free table from which nobody is missing, a command that is no late sit-in keeps stacks + pot + rake over its whole event list, always when there is no rake and otherwise when the rakes fit, and leaves such a table. |
| Journal.AppendsOnlyAtEnd | internal/store/store.go:360-396 | A batch numbered from an observed end of the log goes in exactly when that still is the end, and then the log stays gapless. |
| Journal.VersionIsSequence | internal/engine/apply.go:12-18 | A replayed state's version is the number of events behind it. |
| Journal.ReplayOn | internal/engine/lobby.go:23-34 | Replaying on from a prefix equals replaying at once. |
| Storage.EventStore.constructor | internal/store/store.go:289-333 | A new table's log is its creation event at sequence 1. |
| Storage.EventStore.AppendEvents | internal/store/store.go:362-396 | Inserts all rows or none; fails exactly on a taken, repeated or zero sequence. |
| Storage.EventStore.GetEventsForGame | internal/store/store.go:398-408 | Returns the page of the log from a sequence on. |
| Storage.EventStore.GetLatestSequence | internal/store/store.go:410-416 | Returns the length of a gapless log. |
| Storage.EventStore.FindEventByCommandID | internal/store/store.go:418-434 | Finds the first event of a command, or that there is none. |
| Storage.EventStore.LoadState | internal/engine/lobby.go:17-36 | Paged replay with any page size of at least one gives the state of the whole log and its last sequence. |
| Session.StampEvents | internal/engine/session.go:358-378 | Numbers events from the end of the log, version equal to sequence. |
| Session.StampingChangesTimesOnly | internal/engine/session.go:358-378 | Stamped events lead to the state the unstamped ones led to, but for the hand's start time; the version is that of the last event. |
| Replays.StoredIsReplayed | internal/engine/session.go:231-235 | Storing events and applying them to the live state keeps it equal to the replay of the log. |
| Replays.RepeatKeepsReplayIff | internal/engine/session.go:269-274 | After a repeated command id the live state still is the replay if and only if the stored event is the log's last and of a kind that does not recur: no call, blind, ante, rake or award of chips, no bet or raise, no side pot; after an earlier event the version falls back. |
| Replays.AgainIff | internal/engine/apply.go:12-544 | For every kind of event: applied to the state it led to, it changes that state again if and only if it moves chips, bets or raises, or adds a side pot. |
| Replays.CommandRecursIff | internal/engine/handler.go:68-111 | A command's event has a further effect if and only if it is an accepted call, bet or raise. |
| Replays.RepeatedCallPaysTwice | internal/engine/session.go:231-235 | A log in which a call submitted twice takes the chip twice from the live state and sets its version back. |
| Session.GameSession.constructor | internal/engine/router.go:97-103 | A session starts with the replayed state and a dealer of its own, whose deck is in order and undealt and is enough for 22 seats. |
| Session.GameSession.HandleResume | internal/engine/session.go:308-351 | A paused table: the resume event and a lifecycle run to rest behind it; any other: a rejection alone. Fails only for want of cards. |
| Session.GameSession.Persist | internal/engine/session.go:295-302 | Stores stamped events or, on a database failure, nothing. |
| Session.GameSession.Process | internal/engine/session.go:269-303 | A repeated id returns the stored event and stores nothing; a fresh one stores the command's event and a lifecycle run to rest, stamped. Fails only with the database or for want of cards, which a small table never is; whether or not the write succeeds the state is untouched and the dealer is where the run left it. |
| Session.GameSession.Submit | internal/engine/session.go:231-235 | Keeps live state equal to replay for fresh ids, equal to what the engine reached but for times; on failure the state stays and only the dealer has gone on, and it fails only as Process does; a repeated id applies the stored event again, which keeps the replay exactly when that event is the last and does not recur. |
| Session.GameSession.Wake | internal/engine/session.go:248-260 | Proactive advances keep live state equal to replay; without events either nothing was left to do, the database failed or cards ran out. |
| Seating.EngineKeepsSeats | internal/engine/apply.go:69-521 | No event but a join or leave changes who sits where. |
| Lobby.JoinCommitsIff | internal/lobby/join_leave.go:86-110 | A validated join commits if and only if nothing was committed since its state was loaded and the wallet covers it; otherwise log and wallets are untouched. |
| Lobby.LobbyAppendIff | internal/lobby/join_leave.go:176-198 | A lobby append goes in if and only if nothing was committed since the load. |
| Lobby.StepKeepsSystem | internal/lobby/join_leave.go:23-229 | Each step of any writer keeps log, seats and writers' knowledge sound and accounts for all chips of wallets, table and pending credits. |
| Lobby.HistoryKeepsSystem | internal/lobby/join_leave.go:23-270 | Under any interleaving of lobby and session writers the log is exactly 1..n with version equal to sequence, seats are unique at every point of its replay, and wallets + table + pending credits change only by sessions' events, failed credits and negative stacks. |
| Lobby.TableHistory | internal/lobby/join_leave.go:244-270 | From a table's creation on, under any interleaving of writers: seats in 1..MaxSeats, no seat shared, no user seated twice, version equal to the number of events. |
| Lobby.LostCredit | internal/store/store.go:364-396 | Because the append commits by itself, a credit that fails afterwards loses the cash-out, and a retry with the same id is answered from the log. |
| Lobby.LeaveKeepsSeats | internal/lobby/join_leave.go:176-193 | Leaving takes exactly the leaver's stack off the table; what was committed stays in the pot. |
| Lobby.LeavingFoldsFirst | internal/lobby/join_leave.go:165-188 | Whoever leaves is removed and nobody else changes; leaving a hand not folded takes them off the pending players, keeps pot and board, and ends whosoever turn it was. |
| Accounts.TableAccounts | internal/lobby/join_leave.go:23-229 | From a table's creation on, lobby and session writers interleaving, as long as nothing is committed between the state a session computes its plan from and its append and players leave between hands: no stack goes below zero, and wallets + table + pending credits are the first wallets less the rake taken and the cash-outs whose credit failed. |
| Races.StaleAppendLosesPot | internal/engine/session.go:283-292 | A concrete history: a session's plan, sound for the state in memory, is appended after a lobby leave it did not see; the log accepts it and 3 of 20 chips are gone. |
| Accounts.StampedPlanConserves | internal/engine/session.go:358-378 | A command's event and lifecycle run, stamped and appended, keep the betting invariant and all chips but the rake, when its hands start covered and its showdowns pay fully. |
| LobbyService.FindPlayerByUserID | internal/lobby/join_leave.go:235-242 | Finds a player of the user, or that there is none. |
| LobbyService.SelectSeat | internal/lobby/join_leave.go:246-270 | The requested seat if free, else the lowest free one; fails exactly when there is none. |
| LobbyService.Wallets.DebitUserBalance | internal/store/users.go:458-470 | Debits exactly when the balance covers the amount. |
| LobbyService.Wallets.CreditUserBalance | internal/store/users.go:472-484 | Credits exactly when the user has a balance row. |
| LobbyService.ValidateJoin | internal/lobby/join_leave.go:60-84 | Accepts a join if and only if the table is neither finished nor closed, the buy-in is within the limits, the user is not seated, and the requested seat, or without a request some seat, is in range, not reserved and not taken; the seat is the requested or the lowest such. |
| LobbyService.DebitAndAppend | internal/lobby/join_leave.go:86-110 | Debit and append both happen or neither. |
| LobbyService.JoinTable | internal/lobby/join_leave.go:23-124 | A fresh join that the table accepts and the wallet covers succeeds when nobody else commits in between; success keeps wallets + table and appends one join; any failure leaves wallets and log as they were but for what others committed. |
| LobbyService.LeaveTable | internal/lobby/join_leave.go:129-229 | A fresh leave succeeds when nobody else commits in between and the credit goes through; success keeps wallets + table for a stack not below zero; a failed credit, or a missing user row, is the one failure that leaves its events behind. |
| Deposits.DepositStore.ReportSteps | internal/store/users.go:277-414 | One transaction per report: idempotent by report id, refused as a whole for negative counts and unknown users. |
| Deposits.DepositStore.SumCreditedToday | internal/store/users.go:346-353 | Adds up the audit log for a user and date. |
| Deposits.GrantReachesWorth | internal/store/users.go:319-363 | High-water mark, increment and cap take a day's credit exactly to the worth of the new highest count. |
| Deposits.DepositKeepsLedger | internal/store/users.go:277-414 | Every report keeps: mark is the highest count logged, credit of each date is its worth, total deposited is the sum over dates. |
| Deposits.DepositsAreWorth | internal/store/users.go:277-414 | After any reports, in any order and with any repetitions of ids, a date is credited min(cap, highest count), or the count when uncapped, the highest being over the first accepted report of each id; and the total is the sum over dates. |
| Deposits.SameSetSameCredit | internal/store/users.go:277-414 | Two lists of the same reports, in any order and multiplicity, credit the same, provided a repeated id repeats its report. |
| Deposits.ReusedIdOrderMatters | internal/store/users.go:277-317 | Two different reports under one id credit whichever came first. |

## Left out

- 64-bit overflow: stacks, pots and balances are unbounded integers.
- Events the engine never emits (dead blinds, straddles, run-it-twice and second board, seat reservations and changes, disconnects, kicks, waiting list, top-ups and rebuys, buy-in events) and commands without effect on play (chat, emotes, time bank, show and muck).
- The hand phases "over" and "unspecified", which no event produces, and their guard in requireHandInProgress.
- Texts: hand descriptions, rejection messages, the winning five cards of an award, and the informational fields of events.
- The configuration check as a whole; `Posting.ConfigOk` keeps the bounds the proofs need, blinds positive and increasing and the rake within 0..10000 basis points (internal/server/validate.go:31-51).
- Goroutines, channels, timers, the reaper and the router's session map: a session is a step function, and time is a value passed in.
- gRPC, authentication, protobuf encoding, SQL text and UUIDs; persistence is an exact round trip and ids are numbers.
- Snapshots after the first: as in the code, only creation writes one.
- Deleted users, and caps that change between reports of one day: `Deposits.DepositsAreWorth` assumes constant caps.
- Contention.RunConserves: assumes that nobody sits in, joins or leaves during a hand, because a latecomer can be left alone with a pot that has no winner and a leaver's chips have no owner; `Conservation.BatchConservesIff` covers the rest.
- Contention.MoveConserves: nobody sits in, joins or leaves during a hand, as for `Contention.RunConserves`.
- Runs.RunKeepsTable: leaves between hands only, because a player who leaves mid-hand is deleted while their chips stay in the pot and their name in the order; `Leavers.OpenRunKeepsFair` says what survives leaves at any time.
- Runs.ReachableBetting: leaves between hands only, because somebody who leaves and joins again during a hand is in the order without having matched; `Leavers.OpenBetting` says the rest for leaves at any time.
- Accounts.TableAccounts: excludes appends computed from a state older than the end of the log, which can lose chips (`Races.StaleAppendLosesPot`), and leaves during a hand; `Lobby.HistoryKeepsSystem` balances the books in all these cases, the sessions' share of it left open.
- Dealing.SessionCardsDistinct: joins and leaves between hands and writes that succeed; `Decks.HandStaysDistinctIff` says what happens otherwise.
- Reloads for other reasons, an idle time-out or a restart, are not steps of a session: a session ends there, and `Decks.ReloadedHandDistinctIff` says how the hand goes on.
- Deposits.SameSetSameCredit: repeated ids repeat their report, because otherwise the order decides (`Deposits.ReusedIdOrderMatters`); `Deposits.DepositsAreWorth` has no such condition.
- Reducer.TableState.StartHand: assumes distinct seats, which `Lobby.HistoryKeepsSystem` proves of every log; the specification fixes one seat order, and on shared seats the order of Go's sort is left open.
- Reducer.TableState.ResetStreet: assumes distinct seats, as `Reducer.TableState.StartHand` does.
- Reducer.Apply: assumes distinct seats, as `Reducer.TableState.StartHand` does.
- Driver.AdvanceIdle: assumes distinct seats, as `Reducer.TableState.StartHand` does.
- Driver.AdvanceTable: assumes distinct seats, as `Reducer.TableState.StartHand` does.
- Handler.ApplyAll: assumes distinct seats, as `Reducer.TableState.StartHand` does.
- Handler.RunAdvance: assumes distinct seats and a configuration the server admits at creation.
- Handler.HandleCommand: assumes distinct seats and a configuration the server admits at creation.
- Session.GameSession.Submit: assumes that a session command's id is not one the lobby used at the same table, because replaying a stored join could seat a player on a taken seat.
- The fixed-limit cap and sub-minimum all-ins beyond the branch they belong to: all-ins bypass both checks.
