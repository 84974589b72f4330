# Bridge table server: a verified model

The server keeps each bridge table as a board and a log of actions, and folds the log to find out
everything else: the auction, the contract, the tricks, whose turn it is, the score. People and bots act
on the table concurrently; bots think with the lock released. Sessions place people at tables. This
project models those parts in Dafny and proves what they promise, for every log, run and interleaving.

| file | models |
|---|---|
| `Bridge.dfy` | seats, cards, calls, wrapping bytes |
| `Auction.dfy` | `src/engine/auction.rs`: the backward scans, and the Laws as a one-pass automaton |
| `CardPlay.dfy` | `src/engine/play.rs`: following suit, trick winner; cards left in a hand |
| `RecordedLine.dfy` | `PlayLine` of `src/table.rs`: a recorded play as one queue a seat |
| `TableLog.dfy` | `src/table.rs`: the log, the fold, `apply`, `undo_to`, `remaining` |
| `TableLaws.dfy` | the invariant of reachable logs |
| `TableTheorems.dfy` | what follows from it |
| `TableResults.dfy` | what the table reports, with suits and seats spelled out: trick winners, results, turns, refusals |
| `Rotation.dfy` | `rotate_board_one` of `src/rooms.rs` |
| `Rooms.dfy` | `src/rooms.rs` and the bid, play and undo arms of `src/routes/ws.rs` |
| `Control.dfy` | who controls the seat on turn |
| `Bots.dfy` | one bot turn of `src/bots.rs`: capture, choose, commit; the prediction cache of `src/bots/bba.rs` |
| `LineReplay.dfy` | bots following a recorded line |
| `Optimistic.dfy` | what a bot's suggestion or a checked claim (`src/claims.rs`) meets when it comes back |
| `BotDriver.dfy` | the driver's flag and wake-up protocol as interleaved steps |
| `SeatFill.dfy`, `Placing.dfy`, `Assigning.dfy`, `Sessions.dfy` | `src/sessions.rs`: filling tables, `place_seat`, `assign_seat` |

Every lemma turns automatic induction off, so each inductive proof is written out.

Code that loops or updates state in place is a method or a class, proved against a function or a
relation; the theorems are about those. A deal is assumed to be four disjoint hands of thirteen cards
(the loaders only check that there are 52); that assumption is `Deal.Valid`, and every theorem that needs
it says so.

Where the code and its comments disagree the model follows the code:

- A matching log length does not mean a matching log. `CountMayMatchAnotherLog` gives the run in which the
  branch called unreachable (`src/bots.rs:422`) is reached. `CommitLandsExactly` says exactly when a suggestion
  is made, read off the table it meets; when nothing captured was undone or re-dealt that always holds
  (`CommitSucceeds`).
- A matching card count does not mean the same position (`src/claims.rs:8-9`):
  `ClaimMayJudgeAnotherPosition`. `ClaimLandsExactly` says exactly when a checked claim is accepted. When
  nothing that was checked was undone or re-dealt the position is the same, but another claim may have got in
  first, and then this one is refused (`ClaimMeetsItsPosition`).
- A card sent during the automatic auction of a play-only board passes the turn check while the bots are
  bidding for that seat (`CardPassesInAutomaticAuction`); the table then refuses it, and this is the only case
  (`PlayAndGateExclude`).
- Undo to the last human action does not always leave the table waiting for that human. `UndoToHuman` says
  exactly when it does: after a call unless the auction is automatic, after a card always, and after a claim
  when it was made on the claimer's own turn. `UndoOfClaimMayFreeBot` is a claim after which a bot acts.
- The driver can lose a wake-up in three ways: the paused exit (`PausedExitLosesTurn`), the re-check that does
  not know the forced mode (`ForcedAuctionLosesTurn`), and a hand-over nobody is told of
  (`SilentHandoverLosesTurn`). `NoTurnIsLost` shows there is no fourth, and after the next keepalive tick every
  schedule takes the turn (`EveryScheduleTakesTurn`).

## Model

| member | source | states |
|---|---|---|
| Auction.CallerAt | src/engine/auction.rs:23-30 | the stepping loop ends at the dealer advanced by the call's index |
| Auction.FindLastAction | src/engine/auction.rs:136-147 | the backward loop finds the last bid or double, and nothing once a redouble comes first |
| Auction.FindLastBid | src/engine/auction.rs:149-158 | the backward loop finds the last bid with its index |
| Auction.LastBidNames | src/engine/auction.rs:149-158 | the last bid's index is in range and the call there is that bid |
| Auction.NoLaterBid | src/engine/auction.rs:149-158 | no bid comes after the last bid, and none exists when none is found |
| Auction.Contract | src/engine/auction.rs:79-96 | the prefix the contract is resolved from is the whole auction, and there is a contract only once it is complete |
| Auction.ScansAgree | src/engine/auction.rs:38-71 | in any state that describes the calls read, the scans and the automaton accept the same calls and the same end |
| Auction.ScanReflects | src/engine/auction.rs:136-158 | on every legal auction the automaton's last bid, side, doubling and passes are what the scans find |
| Auction.AuctionRefinesLaws | src/engine/auction.rs:38-71 | on every legal auction `is_legal` and `is_complete` decide what Laws 18, 19 and 22A decide |
| Auction.BidsRise | src/engine/auction.rs:44-58 | in a legal auction every bid outranks every earlier bid |
| Auction.SufficientBid | src/engine/auction.rs:12-20 | over the last bid a bid is legal exactly when it is for more tricks, or as many in a higher denomination, clubs lowest, then diamonds, hearts, spades, notrump |
| Auction.ContractFromAutomaton | src/engine/auction.rs:79-96 | a complete auction has a contract exactly when someone bid, with the automaton's final level, strain and doubling |
| Auction.DeclarerNamedFirst | src/engine/auction.rs:3-6 | the declarer is the first of the declaring side to name the final strain |
| Auction.CallSpends | src/engine/auction.rs:44-71 | every legal call uses up at least one of the calls still possible |
| Auction.AuctionBounded | src/engine/auction.rs:38-71 | no legal auction is longer than 319 calls |
| Auction.LongestAuction | src/engine/auction.rs:38-71 | a legal auction of exactly 319 calls exists |
| CardPlay.LegalIsFollowing | src/engine/play.rs:22-43 | a card is legal exactly when held and of the suit led, or the hand has none of that suit; a nonempty hand has a legal card |
| CardPlay.BeatsIsStrictOrder | src/engine/play.rs:64-86 | for a fixed lead and trump `beats` is irreflexive, asymmetric and transitive |
| CardPlay.WinnerIsUnbeaten | src/engine/play.rs:47-62 | the winner is the seat of the one card that beats all the others, for any four different cards |
| CardPlay.WinnerByTheLaws | src/engine/play.rs:47-86 | that card is the highest trump if one was played, else the highest of the suit led |
| CardPlay.FindTrickWinner | src/engine/play.rs:47-62 | the loop returns the seat of the leading card, stepping the seat once a card |
| CardPlay.HandAfterMember | src/table.rs:238-246 | a card is still held exactly when it was dealt and not played by that seat |
| CardPlay.HandsSplit | src/table.rs:238-246 | plays and remaining cards together are the original hand |
| RecordedLine.PlayLine.DivergedIsOffBook | src/table.rs:95-105 | diverged exactly when some seat's plays are not a prefix of its queue |
| RecordedLine.PlayLine.UndoStaysOnBook | src/table.rs:88-95 | play on book stays on book when plays are undone |
| RecordedLine.PlayLine.CheckDiverged | src/table.rs:95-105 | the counting loop decides divergence |
| RecordedLine.QueueTrick | src/table.rs:67-82 | a trick's cards go to the queues of the seats clockwise from its leader, gaps skipped |
| RecordedLine.FromSequence | src/table.rs:67-82 | each queue is its seat's plays in order; there is no line exactly when nothing is recorded |
| TableLog.TableState.constructor | src/table.rs:167-173 | a new table has an empty log |
| TableLog.TableState.Apply | src/table.rs:180-226 | the log grows by the action exactly when every check passes; otherwise nothing changes and the first failing check is the error |
| TableLog.TableState.UndoTo | src/table.rs:229-235 | the log is cut to the given length; a length beyond the log is refused |
| TableLog.TableState.RemainingIn | src/table.rs:238-246 | the retain loop leaves the hand without the seat's plays |
| TableLog.TableState.SortActions | src/table.rs:249-290 | one pass gives the calls, the plays and the last claim with the cards played before it |
| TableLog.TableState.AddCard | src/table.rs:309-325 | the fourth card of a trick completes it for the computed winner, who leads next; the byte of that side goes up |
| TableLog.TableState.CountTricks | src/table.rs:303-325 | the trick loop's winners, leader, current trick and byte counts are the tally of the plays |
| TableLog.TableState.SettleClaim | src/table.rs:327-346 | a claim gives its side the claimed tricks, held to those left, and the other side the rest, in bytes |
| TableLog.TableState.FoldTricks | src/table.rs:303-376 | tricks, claim settlement, phase and turn as the fold's specification has them |
| TableLog.TableState.FoldLog | src/table.rs:249-376 | the imperative fold computes the specification `Fold` |
| TableLaws.PlayKeepsTurn | src/table.rs:303-335 | a card by the seat on turn keeps every trick led and played clockwise by the rightful seats |
| TableLaws.PlayKeepsCards | src/table.rs:194-213 | a card that follows suit keeps plays distinct, from their hands, followed where possible, and counted per seat |
| TableLaws.PlayKeepsCount | src/table.rs:318-335 | each side's byte stays the exact number of tricks it won |
| TableLaws.ReachableInv | src/table.rs:180-226 | the whole invariant (shape, turns, cards, tricks, claim) holds of every reachable log |
| TableLaws.AuctionIsReachable | src/table.rs:180-192 | every legal auction, called in turn, is a legal log |
| TableLaws.OpeningLead | src/table.rs:194-213 | after any auction with a contract the leader may lead any card held |
| TableTheorems.LogIsCallsPlaysClaim | src/table.rs:180-226 | a reachable log is calls by each seat in turn, then plays, then at most one final claim |
| TableTheorems.RecordedSeatsAgree | src/table.rs:187-199 | recorded seats agree with the leaders the fold derives, in every completed trick and the one in progress: declarer's left-hand opponent first, then each winner, and clockwise from there |
| TableTheorems.WinnerPlayedWinningCard | src/table.rs:309-325 | the seat credited with a trick is recorded as playing the card that beats the rest |
| TableTheorems.CardsAreConserved | src/table.rs:238-246 | each seat's plays and remaining cards are its thirteen, and how many remain |
| TableTheorems.PlaysAreLawful | src/table.rs:194-213 | no card is played twice, each comes from its seat's hand, each followed suit if it could |
| TableTheorems.TricksAreConserved | src/table.rs:309-346 | no byte wraps, the claim is never cut down, and the sides' tricks are those won and claimed |
| TableTheorems.CompleteMeansThirteen | src/table.rs:336-376 | a complete board has 13 tricks with a contract and 0 when passed out |
| TableTheorems.ResultInRange | src/table.rs:382-420 | the score's `made` lies from -13 to 6, and passed out means nobody bid |
| TableTheorems.SeatOnTurnCanPlay | src/table.rs:238-246 | during play the seat on turn has not yet played to the trick and has a legal card |
| TableTheorems.NeverStuck | src/table.rs:180-226 | at every reachable table that is not complete some action is accepted |
| TableTheorems.EveryActionSpends | src/table.rs:180-226 | every accepted action lowers the bound on actions to come |
| TableTheorems.RunIsBounded | src/table.rs:180-226 | an undo-free run has at most 319 calls and then 52 plays, claim included |
| TableTheorems.RunsStayLegal | src/table.rs:180-235 | no mix of applies and undos leaves the legal logs |
| TableTheorems.ReplayRebuilds | src/table.rs:180-226 | replaying a log from empty rebuilds it exactly when it is legal |
| TableTheorems.SurvivingLogIsEnough | src/table.rs:180-235 | any mix of applies and undos gives the state that replaying the surviving log gives |
| TableTheorems.UndoThenRedo | src/table.rs:229-235 | undoing and re-applying the dropped actions restores the table |
| TableResults.TrickGoesToHighest | src/engine/play.rs:10-86 | every completed trick was won by the seat that played the highest card of the contract's suit, clubs, diamonds, hearts or spades, if any was played, else the highest of the suit led |
| TableResults.CountsBelongToPairs | src/table.rs:309-346 | North-South's count is the tricks North or South won plus their share of a claim, and East-West's likewise |
| TableResults.ResultIsDeclarers | src/table.rs:382-420 | a complete board's result counts the tricks won or claimed by declarer or the seat opposite, or left by a defender's claim; it is made exactly when they are at least six plus the level |
| TableResults.CallsGoClockwise | src/engine/auction.rs:23-30 | the dealer calls first, and each call is by the player to the left of the last caller |
| TableResults.CardsGoClockwise | src/table.rs:303-335 | within a trick each card is by the player to the left of the last |
| TableResults.LeadsPassToWinners | src/table.rs:303-335 | the player to declarer's left leads first, and then the winner of the trick before |
| TableResults.FoldShows | src/table.rs:249-376 | when the auction and the board are over, when someone is on turn, when the opening lead counts as made, what claim is shown and how many tricks are left, all read off the log |
| TableResults.TrickShown | src/table.rs:354-366 | a trick in progress, with or without cards, is shown until the board is over between two tricks |
| TableResults.RefusedForTheReason | src/table.rs:180-226 | the reason an action is refused for, read off the Laws' automaton, the turn, the cards held and the cards played; with none it is accepted |
| Rotation.RotateBoardOne | src/rooms.rs:739-755 | every hand moves to the next seat, the dealer advances, the recorded line is dropped |
| Rotation.ContractRotates | src/engine/auction.rs:79-96 | the rotated dealer gives the same contract with declarer advanced |
| Rotation.TallyRotates | src/table.rs:303-335 | rotated plays give the tally with seats advanced and the sides' tricks exchanged |
| Rotation.FoldRotates | src/table.rs:249-376 | any rotated log folds to the rotated fold |
| Rotation.RefusalRotates | src/table.rs:180-226 | the rotated action is refused for the same reason as the original, or accepted with it |
| Rotation.LegalRotates | src/rooms.rs:739-755 | a log is legal exactly when the rotated log is legal on the rotated board |
| Rotation.FourTurns | src/rooms.rs:739-755 | four rotations bring every hand and the dealer home |
| Rooms.Room.TryPlace | src/rooms.rs:376-384 | an empty seat is taken and no longer open; an occupied one is left alone |
| Rooms.Room.TryReserve | src/rooms.rs:410-430 | an empty seat is reserved and no longer open; an occupied one refused |
| Rooms.Room.SweepReservations | src/rooms.rs:440-452 | exactly the reservations that expire later than now stay, and the rest are reported |
| Rooms.Room.MarkDisconnected | src/rooms.rs:467-475 | every seat of the sub is marked dropped now; others are unchanged |
| Rooms.Room.SeatOrRebind | src/rooms.rs:326-358 | a seat already held is taken up again; only otherwise the first free one in the order N, S, W, E is taken; none only when all are others' |
| Rooms.Room.LastHumanAction | src/rooms.rs:539-551 | the latest action by a seat that is not a bot's now, with only bots' after it |
| Rooms.Room.HandleBid | src/routes/ws.rs:1264-1292 | a bid is appended for the seat on turn exactly when entitled and acceptable; otherwise nothing changes, and the first reason that applies is given |
| Rooms.Room.HandlePlay | src/routes/ws.rs:1318-1358 | a card likewise, also for whoever plays for the declaring side |
| Rooms.Room.HandleUndo | src/routes/ws.rs:1402-1470 | which point each form of undo rewinds to, and that the prediction cache is dropped |
| Rooms.SeatOpDoes | src/rooms.rs:376-475 | what each seat operation does to any seat: who sits there, whether it is open and for whom it is kept; every other seat stays as it was |
| Rooms.SeatOpStaysConsistent | src/rooms.rs:376-396 | every seat operation keeps occupied and open seats apart; marking open without vacating does so exactly on a vacant seat |
| Rooms.SeatRunsStayConsistent | src/rooms.rs:376-430 | over all runs of the seat operations no seat is both occupied and open |
| Control.TakeoverWaitsOutGrace | src/rooms.rs:553-570 | a dropped occupant's seat goes to the bot exactly when the grace is over, and comes back at once on return |
| Control.TurnGraceDecides | src/rooms.rs:553-570 | for the seat on turn it is the on-turn grace that counts |
| Control.WhoPlaysNext | src/bots.rs:187-198 | with declarer or dummy on turn: a declarer who is there plays and the gate is shut, else a dummy who is there, else the gate is open; a defender's seat is its holder's or the bot's |
| Control.GateByMode | src/bots.rs:173-179 | the driver's gate and the two turn checks in each phase and mode: all bots in a play-only auction, no cards on a bid-only board, nothing once complete |
| Control.DenialsInOrder | src/routes/ws.rs:1264-1352 | a call or card is turned away for the board's mode, then for the board being over, then for the turn; past that the table's own refusal is passed on |
| Control.SideControllerPrefersPeople | src/rooms.rs:487-501 | the declaring side is a person's whenever either seat is, the declarer's first |
| Control.GateMeansBot | src/bots.rs:187-198 | whoever passes a turn check while the driver's gate is open holds a bot-controlled seat, outside an automatic auction |
| Control.BidAndGateExclude | src/routes/ws.rs:1272-1284 | a connected occupant's bid never passes while the gate is open |
| Control.PlayAndGateExclude | src/routes/ws.rs:1326-1352 | a connected occupant's card passes while the gate is open exactly in the automatic auction, and the table refuses it |
| Control.CardPassesInAutomaticAuction | src/routes/ws.rs:1326-1352 | a concrete table where it passes |
| Control.UndoToHuman | src/rooms.rs:524-551 | after undo to the last human action, of any kind, only bots' actions are gone; the seat on turn and whether the driver acts can be read off the table before; it waits for that human exactly after a call outside an automatic auction, a card, or a claim made on their own turn |
| Control.UndoOfClaim | src/rooms.rs:524-551 | any claim undone puts the seat it came in on back on turn, and the gate is open exactly when no person plays that seat's cards and the board is not bid-only |
| Control.UndoOfClaimFreesLeader | src/rooms.rs:524-551 | after any auction, undoing a person's claim made before the opening lead opens the gate exactly when a bot leads |
| Control.UndoOfClaimMayFreeBot | src/rooms.rs:524-551 | a concrete table where it does |
| Bots.CaptureTurn | src/bots.rs:276-340 | the first phase takes a turn exactly when the gate is open, with the captured auction or legal cards |
| Bots.OpenGateCaptures | src/bots.rs:276-340 | at a reachable table an open gate always yields a turn |
| Bots.SuggestionFits | src/bots.rs:276-340 | whatever is suggested for a captured turn is acceptable to the table it was captured from |
| Bots.CaptureSays | src/bots.rs:276-340 | a captured card turn lists exactly the cards the table would accept, and names the declarer as the decider for either seat of that side; a captured call turn says whether that side is told to pass |
| Bots.ChooseCall | src/bots.rs:512-542 | the call is legal while the auction is on, whatever the cache and the service say; the cache's new content |
| Bots.ChosenIsLegal | src/bots.rs:512-542 | the same of the specification, and a request is made exactly when the cache has no legal continuation |
| Bots.RequestOutcome | src/bots.rs:512-542 | a reply that extends the auction is cached and its next call made if legal; any other reply means a pass, and the cache goes only if the call it had was illegal |
| Bots.PredictionIsServed | src/bots/bba.rs:79-86 | while the calls made by bots and people stay a strict prefix of a legal cached prediction, every bot call is the predicted one and no request is made, whatever replies there would be and however many bots come back too late |
| Bots.OneRequestPerAuction | src/bots.rs:512-542 | when the cache has no legal call to give, the first bot to call after any calls by people makes one request, and its reply serves all the bots while play follows it |
| Bots.ChosenCardIsLegal | src/bots.rs:547-611 | the chosen card is legal unless it is an illegal answer of the rulebot; an on-book recorded card wins |
| Bots.LineFirst | src/bots.rs:254-266 | the recorded card is played exactly when play has followed the line, it is the next in the seat's queue, and it is legal |
| Bots.ModesAnswer | src/bots.rs:373-392 | off the line: a legal answer of BEN's for the seat asked about in Real mode, else the rulebot in all modes but Random, else a legal card that no service has a say in |
| Bots.TurnIsMade | src/bots.rs:270-427 | whatever the services and the cache say, a turn the driver takes is made at once for the seat on turn, unless the rulebot named a card the table would not take |
| Bots.Commit | src/bots.rs:411-427 | stale counts and refusals change nothing; otherwise the suggestion is appended |
| LineReplay.RecordRoundTrip | src/table.rs:67-82 | cutting clockwise plays into recorded tricks and flattening them gives the plays back |
| LineReplay.ScriptedNext | src/bots.rs:254-266 | on book, the line's next card for whoever played card k is card k |
| LineReplay.LineTurnFollows | src/bots.rs:254-266 | at the point where card k is next the driver's turn commits exactly it |
| LineReplay.LineIsReplayed | src/bots.rs:254-266 | bots in every seat replay a legal recorded line card by card |
| LineReplay.FlattenAndReplay | src/table.rs:60-105 | record, flatten and replay gives the whole play back, on book throughout |
| Optimistic.CommitIsSafe | src/bots.rs:411-427 | after any applies, undos and re-deals a suggestion leaves the log legal: untouched or one accepted action longer; stale exactly on another length, rejected exactly when the table refuses it |
| Optimistic.CommitSucceeds | src/bots.rs:411-427 | if nothing captured was undone or re-dealt, a matching count means the same log and the suggestion is accepted |
| Optimistic.CommitLandsExactly | src/bots.rs:411-427 | whatever was applied, undone or re-dealt, a suggestion is made exactly when the table it meets has the captured length and, for a call, the same dealer and an auction it is legal after; for a card, that seat on turn, the card held and suit followed |
| Optimistic.CallFits | src/table.rs:183-193 | a call captured at one reachable table is acceptable to another of the same length exactly with the same dealer and an auction it is legal after |
| TableTheorems.CardFits | src/table.rs:194-213 | a card is acceptable exactly when its seat is on turn to play, was dealt it and has not played it, and follows suit or is void |
| Optimistic.AppliesNeverBelow | src/bots.rs:411-427 | applies alone undo nothing, so that condition covers them |
| Optimistic.CountMayMatchAnotherLog | src/bots.rs:415-427 | the concrete run in which the count matches a different log and the suggestion is refused |
| Optimistic.CheckClaim | src/claims.rs:67-101 | the first phase's checks in order |
| Optimistic.ClaimIsChecked | src/claims.rs:67-101 | those checks read off the log: cards seen against cards played, tricks claimed against thirteen less those completed |
| Optimistic.ApplyClaim | src/claims.rs:125-148 | without the solver's proof nothing changes; else the card count is compared and the table asked |
| Optimistic.ClaimIsSafe | src/claims.rs:125-148 | after anything meanwhile a claim leaves the log legal, and ends the board or changes nothing: stale exactly on another card count, else refused exactly when the table refuses it |
| Optimistic.ClaimMeetsItsPosition | src/claims.rs:125-148 | if nothing checked was undone or re-dealt, a matching card count means the claim is accepted exactly if the log is the one checked; else another claim came first |
| Optimistic.ClaimLandsExactly | src/claims.rs:125-148 | whatever was applied, undone or re-dealt, a checked claim is accepted exactly when the table it meets shows the checked count and its play is still on |
| Optimistic.ClaimMayJudgeAnotherPosition | src/claims.rs:8-9 | after an undo and another lead a claim checked on one position is applied to the other |
| BotDriver.AtMostOneDriver | src/bots.rs:132-158 | over every interleaving at most one task drives, exactly when the flag is set |
| BotDriver.DriverKeepsLogLegal | src/bots.rs:132-158 | over every interleaving the log stays legal |
| BotDriver.CommitStep | src/bots.rs:411-427 | a stale suggestion sends the driver round again with nothing changed, a made one with the log one longer, and a refused one ends the driving |
| BotDriver.NoTurnIsLost | src/bots.rs:132-170 | over every interleaving, unless a task leaves by the paused exit after a resume or a change without a kick hands the turn of a running room over, no quiet unblocked room has a bot turn pending |
| BotDriver.NoTurnIsLostSinceKick | src/bots.rs:132-170 | and only what happened since a kick was last requested matters, whatever was lost before |
| BotDriver.NeverBlockedNeverLeaves | src/bots.rs:132-158 | a room never paused or unloaded never takes that exit |
| BotDriver.PausedExitLosesTurn | src/bots.rs:132-158 | the run in which the paused exit loses a turn |
| BotDriver.ForcedAuctionLosesTurn | src/bots.rs:160-178 | the run in which the re-check's missing forced mode loses a turn |
| BotDriver.SilentHandoverLosesTurn | src/bots.rs:160-170 | the run in which grace runs out on a turn and nobody is told |
| BotDriver.KeepaliveRevives | src/bots.rs:94-107 | in any quiet room the next keepalive tick starts a driver |
| BotDriver.KeepaliveCaptures | src/bots.rs:94-107 | if its gate is open, two steps later that driver has captured the waiting turn |
| BotDriver.KeepaliveTakesTurn | src/bots.rs:132-158 | and, left to itself, has made its choice and looks for the next turn |
| BotDriver.EveryScheduleTakesTurn | src/bots.rs:132-158 | with only kicks and task steps after the tick, every schedule begins with the kick, the capture of the waiting turn and the commit of the choice made |
| SeatFill.OrderIsPolicy | src/sessions.rs:754-827 | the seat taken is, of a list, the first that is free; of sides in turn, South then North and West then East; of a whole table, South, West, North, East |
| SeatFill.ArrivalIsPolicys | src/sessions.rs:774-852 | an arrival takes that seat at the first table from the cursor that has one, and of a new table when none has |
| SeatFill.AllVisitedFull | src/sessions.rs:830-852 | a round that found every visited table full has visited all tables |
| SeatFill.ArrivalKeepsEveryone | src/sessions.rs:774-852 | an automatic arrival displaces nobody live and sits down connected |
| SeatFill.ArrivalTakesOne | src/sessions.rs:774-852 | each arrival takes exactly one more policy seat |
| SeatFill.TablesOpened | src/sessions.rs:774-852 | k arrivals at t0 empty tables of m policy seats leave the larger of t0 and k/m rounded up |
| SeatFill.EvenSpread | src/sessions.rs:830-852 | while t0 tables have seats for all, after k arrivals each table holds k/t0 guests, and the first k mod t0 from the cursor one more |
| Placing.ArrivalIsSafe | src/sessions.rs:867-1014 | whichever branch wins, nobody live loses a seat, and the guest sits connected where told or is in the lobby |
| Placing.OwnerSeatedIsSafe | src/sessions.rs:877-913 | an owner who resumes displaces only dropped occupants, and all of them; everyone else stays, and the owner has South |
| Placing.SeatOutranksAll | src/sessions.rs:914-927 | a guest with a seat is back in one of theirs, at the first table where they have one, and nothing else changes |
| Placing.InviteOutranksLobby | src/sessions.rs:928-947 | a guest with no seat gets a reserved one if some table keeps one free with none of its seats for them occupied, and only if some reserved seat is free; exactly then with at most one reservation a table; the seat is theirs, its reservation is gone and no other seat at the table changed |
| Placing.LobbyIsSticky | src/sessions.rs:948-963 | a lobby member with no seat and no reservation stays in the lobby, parked as before and under the name now given, at the table they watched, or the first if that is not known |
| Placing.NameOutranksPolicy | src/sessions.rs:964-985 | a newcomer takes over the dropped seat that bears their name at the first table with one, before any seat is given by policy |
| Placing.StrangerWaits | src/sessions.rs:986-1014 | a stranger under a manual policy gets the free seat an invite asks for, and otherwise, or while the session waits to seat, waits in the lobby without being parked |
| Placing.SweptIsUnreserved | src/sessions.rs:928-947 | an expired reservation counts neither way, swept or not |
| Placing.StrangerTakesPolicySeat | src/sessions.rs:998-1007 | a stranger takes the policy's next seat, spelled out, at the first table from the cursor with one, and a table is opened only when every policy seat is taken |
| Placing.StrangersFillTables | src/sessions.rs:867-1014 | k different strangers through the whole of `place_seat` all sit and leave max(t0, ceil(k/m)) tables |
| Placing.StrangersSpreadEvenly | src/sessions.rs:867-1014 | under a round-robin policy with the cursor going up by one an arrival, k strangers at t0 tables with seats for all leave k/t0 or k/t0 + 1 guests at every table and open none |
| Assigning.RemovalLosesNobody | src/sessions.rs:1122-1148 | vacating a seat leaves its live occupant seated elsewhere or in the lobby, parked under their name at that table; the seat is a bot's exactly if asked for, and every other seat and its control is as it was |
| Assigning.PlacingLosesNobody | src/sessions.rs:1174-1217 | seating a connection leaves whoever it displaces seated elsewhere or in the lobby likewise; the seat is theirs and every other is as it was |
| Assigning.ExchangeLosesNobody | src/sessions.rs:1149-1173 | move and swap permute one table's occupants: exactly the same people are seated |
| Sessions.Session.constructor | src/sessions.rs:380-445 | a new session has that many empty tables and an empty lobby |
| Sessions.Session.AddRoom | src/sessions.rs:476-508 | one new empty table at the end, on the session's board and mode, with an empty log |
| Sessions.Session.WatchTable | src/sessions.rs:1018-1023 | the first table, opened if there is none |
| Sessions.Session.SeatRoundRobin | src/sessions.rs:830-852 | the pick is the first table from the cursor with a free policy seat and its first such seat; none only when all are full |
| Sessions.Session.SeatPairs | src/sessions.rs:799-813 | a side's seats are filled table by table, from the first |
| Sessions.Session.TrySeatExisting | src/sessions.rs:786-827 | the same by policy, the seat spelled out, none under Manual, and when the cursor moves |
| Sessions.Session.SeatOne | src/sessions.rs:774-784 | an arrival takes the policy's next seat, spelled out, at the first table from the cursor with one, or of a new table when all are full |
| Sessions.Session.ResumeOwner | src/sessions.rs:877-913 | ghosts go; the owner takes South exactly when no live person is there |
| Sessions.Session.Reconnect | src/sessions.rs:914-927 | a seat at the first table where the sub sits is taken up again; none exactly when the sub sits nowhere |
| Sessions.Session.FindSeated | src/sessions.rs:620-628 | the first table where the sub sits, and a seat there; none exactly when there is none |
| Sessions.Session.Redeem | src/sessions.rs:928-947 | the reserved seat is taken at the first table that does not pass the guest over, and the reservation used up; tables before lose at most a dead reservation, tables after nothing |
| Sessions.Session.ReturnToLobby | src/sessions.rs:948-963 | a member's table and parked state are kept under the new name |
| Sessions.Session.ReclaimByName | src/sessions.rs:964-985 | a dropped seat of that name, at the first table with one, changes hands; none exactly when there is none |
| Sessions.Session.PlaceNew | src/sessions.rs:986-1014 | invite seat, then policy seat, spelled out, then waiting lobby, with the whole new state |
| Sessions.Session.PlaceSeat | src/sessions.rs:867-1014 | the ordered branches with the whole new state, and the safety of every one |
| Sessions.Session.HoldsAnySeat | src/sessions.rs:633-653 | whether the sub holds a seat at any table |
| Sessions.Session.Bench | src/sessions.rs:1139-1147 | someone put out of a seat is parked exactly if connected and seated nowhere |
| Sessions.Session.AssignSeat | src/sessions.rs:1103-1221 | each form's exact effect, result and errors, seat by seat: a removed seat is vacant and a bot's exactly if asked for, a given one the connection's; nobody is lost, and no seat becomes both occupied and open |

## Left out

- NoTurnIsLost: the hand-overs of a running room without a kick that it sets aside are grace expiry, the `leave` message, reserving an open seat on turn (`src/sessions.rs:573-594`), and an adhoc owner's resume emptying ghost seats at tables other than the one they land at (`src/sessions.rs:877-897`); they wait for the keepalive.
- StrangersFillTables, StrangersSpreadEvenly: both assume automatic seating throughout, different guests, and no reservation or lobby entry for any of them.
- InviteOutranksLobby: with several reservations for one guest at one table the source picks one in hash order, so its two conditions can differ there.
- The `dealer` parameter of `is_legal`, which the source does not use, and the board's number and vulnerability.
- The library that resolves the final contract is not part of this model; its rule is written from the description and examples in `src/engine/auction.rs`.
- The byte type of a bid's level is kept; the wrap-around of the arrival cursor after 2^64 arrivals is not.
- Placement holds one lock per session and locks each table in turn; `place_seat` and `assign_seat` are modelled as one step each, so messages arriving between two table locks are not.
- Rooms are named by their index, since tables are never removed; the source uses identifier strings.
- `is_bot_seat` reads the clock more than once; the model uses one instant for a check.
- HandleUndo: drops the prediction cache together with the rewind; the source clears it just after releasing the table's lock.
- ModesAnswer: which legal card the fallback pick takes, a hash of the action count, is not stated beyond its being legal.
- Hash-map order: a search over seats picks any match.
- The replies of the bidding, card-play, rulebot and claim-solver services are arbitrary values, with the checks the server makes on them; the services themselves are not modelled.
- Board decks and their navigation, kicking, bulk seating of the lobby, pass-side settings and the reservation commands beyond the room's own operations.
- The grace kept for a seat that is not on turn is a parameter; only the on-turn grace is used by the modelled handlers.
- Sockets, JSON, broadcasts, persistence, ticket signing, metrics and configuration.
