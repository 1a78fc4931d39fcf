# TrashTalkSolitaire Klondike engine in Dafny

This project models the rules engine of TrashTalkSolitaire, an iOS Klondike
solitaire game, together with two small decision layers that sit beside
it: the commentator's mood classifier and the statistics counters. It
covers the card rules, the 52-card deck, the triangular deal, stock draw
and waste recycle, move execution (resolve the moved run, validate,
remove, append, auto-flip, push an undo entry), undo, win detection,
auto-complete and the tap-selection state machine. It also covers the
three standalone scripts that re-implement the engine: the draw-three
simulation with its move finder and 52-card validator, the undo
reproduction script, and the deck script with the "easy" biased shuffle.

The card's identity is its (suit, rank) pair (`Cards.Key`). Conservation
is stated as equality of the multiset of keys across stock, waste,
tableau and foundations. A full set holds each of the 52 keys exactly
once (`Cards.IsFullSet`).

Modules:

- `Cards` holds suits, colours, ranks, the two stacking rules and the
  ordered full deck.
- `Piles` holds generic pile operations: flatten, reverse, turning
  cards, recycling, pile shape (face-down prefix and face-up suffix),
  and foundation order.
- `GameModel` holds the app's `GameState` record, its empty state,
  move sources and destinations, and undo entries.
- `Deck` holds shuffles as caller-supplied swap lists, the easy
  shuffle, the dealing loop and the deck validator.
- `Engine` holds the app view model's operations.
- `EngineLaws` holds the relations between engine operations: a move
  relocates its run, undo reverses a move, and the undo defect.
- `Simulation` models the draw-three script with its own table, move
  functions, move finder and validator.
- `UndoReplay` models the undo reproduction script with its two undo
  variants.
- `Commentary` holds the mood classifier as an ordered rule table.
- `Statistics` holds the stats record, achievements, and the win, loss
  and reset updates, plus the two display strings.

Randomness becomes parameters: every shuffle is a list of swap index
pairs, which is what a Fisher-Yates shuffle performs. Today's date
string is also a parameter to `Statistics.RecordWin`. The persisted
settings become a `Settings` parameter to `GameModel.Empty`.

In these places the code does something a reader might not expect; the
model follows the code:

- The app's `deal` builds its fresh state with the memberwise
  initialiser. That state does not carry the persisted draw-three and
  Vegas settings, so `Engine.Deal` yields draw-one, non-Vegas, medium
  difficulty and a Vegas score of -52.
- The app's `drawFromStock` always turns exactly one card. Draw-three
  exists only in the simulation script, modelled by `Simulation.Draw`.
- The shipped undo restores the waste from a snapshot (see Findings).

## Model

| member | source | states |
|---|---|---|
| Cards.Opposite | TrashTalkSolitaire/Models/Card.swift:26-28 | the opposite colour is never the colour itself; it is red exactly when the input is black |
| Cards.OppositeIsInvolution | TrashTalkSolitaire/Models/Card.swift:26-28 | taking the opposite twice gives back the original colour |
| Cards.SuitColors | TrashTalkSolitaire/Models/Card.swift:15-20 | clubs and spades are black, diamonds and hearts red, so exactly two suits have each colour |
| Cards.CanStackOnTableau | TrashTalkSolitaire/Models/Card.swift:63-65 | a card stacks only on a face-up card of the opposite colour whose rank is exactly one higher; so a king never stacks and nothing stacks on an ace |
| Cards.CanStackOnFoundation | TrashTalkSolitaire/Models/Card.swift:68-73 | on an empty foundation, exactly aces are accepted; otherwise only the same suit, one rank above the top, so no ace on a non-empty pile and nothing on a king |
| Cards.KingRules | TrashTalkSolitaire/Models/Card.swift:63-73 | a king stacks on no tableau card, and no card goes onto a foundation whose top is a king |
| Cards.FullDeckContents | TrashTalkSolitaire/Models/Card.swift:75-81 | the full deck has 52 face-down cards, laid out suit by suit in rank order, and holds every (suit, rank) exactly once |
| Cards.FullSetSize | test_deck.swift:78-110 | any collection holding every key exactly once has exactly 52 cards |
| Piles.RecycleKeys | TrashTalkSolitaire/ViewModels/GameViewModel.swift:78-86 | recycling the waste (reversed and turned face-down) keeps its multiset of cards |
| Piles.RecycleTwice | TrashTalkSolitaire/ViewModels/GameViewModel.swift:78-86 | recycling twice restores the original order, with every card face-down |
| Piles.OrderedFoundationSize | TrashTalkSolitaire/Models/Card.swift:68-73 | a foundation built by the foundation rule holds at most 13 cards and, when full, ends with a king |
| Piles.OrderedAfterPlace | TrashTalkSolitaire/Models/Card.swift:68-73 | appending a card the foundation rule accepts keeps a foundation an ace-up single-suit sequence |
| GameModel.Empty | TrashTalkSolitaire/Models/GameState.swift:36-49 | the empty state has 7 empty tableau piles, 4 empty foundations, no cards at all, move count and elapsed time 0, not won, Vegas score -52, medium difficulty and the passed-in mode settings |
| GameModel.TotalCardsCountsAllCards | TrashTalkSolitaire/Models/GameState.swift:17-34 | the card total counts every pile once and splits into cards in play plus foundation cards |
| Deck.ApplySwapsPermutes | test_deck.swift:52-64 | any sequence of in-range swaps keeps the card multiset and face-down orientation |
| Deck.ShuffleMedium | test_deck.swift:46-50 | the medium shuffle yields 52 face-down cards holding every key once |
| Deck.EasyArrangement | test_deck.swift:52-57 | before the final swaps, the easy shuffle puts 36 cards of rank above 4 first and the 16 low cards last, as a full face-down set |
| Deck.ShuffleEasy | test_deck.swift:52-64 | the easy shuffle yields a permutation of the full deck, face-down |
| Deck.DealtColumn | test_deck.swift:66-76 | column c holds c+1 cards taken from the deck's tail, and only its last card is face-up |
| Deck.DealTableau | test_deck.swift:66-76 | dealing builds 7 well-formed columns of sizes 1..7, shrinks the deck by exactly 28 cards from its tail, loses no card, and leaves a valid layout when the deck was a full set |
| Deck.CountKeyIsMultiplicity | test_deck.swift:78-110 | the validator's count of a key equals that key's multiplicity |
| Deck.ValidateExact | test_deck.swift:78-110 | the validator accepts exactly when deck plus tableau hold every key once |
| Engine.Deal | TrashTalkSolitaire/ViewModels/GameViewModel.swift:33-59 | the deal gives column c its c+1 tail cards with only the last face-up, 24 stock cards for a full deck, empty waste, foundations and undo stack, move count 0, and the same cards as the deck |
| Engine.DrawFromStock | TrashTalkSolitaire/ViewModels/GameViewModel.swift:75-95 | a non-empty stock moves its last card face-up onto the waste; an empty stock takes the waste back reversed and face-down; a won game or empty stock and waste changes nothing; nothing else in the state changes |
| Engine.DrawConserves | TrashTalkSolitaire/ViewModels/GameViewModel.swift:75-95 | a draw keeps the card multiset, the total and well-formed piles |
| Engine.DrawTimesConserves | TrashTalkSolitaire/ViewModels/GameViewModel.swift:75-95 | any number of draws keeps the card multiset |
| Engine.Run | TrashTalkSolitaire/ViewModels/GameViewModel.swift:178-190 | the moved run is the waste top, the foundation top, or the tableau suffix from the chosen index; it is never empty |
| Engine.ExecuteMove | TrashTalkSolitaire/ViewModels/GameViewModel.swift:174-271 | a move succeeds exactly when the source has the card and the destination accepts the run; a refused move leaves the session untouched; a success adds 1 to the move count, pushes one entry and sets won iff the foundations total 52, and changes no field other than the piles, the move count and the won flag |
| Engine.ExecuteMoveRejects | TrashTalkSolitaire/ViewModels/GameViewModel.swift:174-208 | an empty source, a non-king onto an empty pile, a failed tableau or foundation rule, or a multi-card run onto a foundation is refused and leaves the session untouched |
| Engine.ExecuteMoveConserves | TrashTalkSolitaire/ViewModels/GameViewModel.swift:220-246 | a move keeps the card multiset, so a full set stays a full set |
| Engine.CheckWin | TrashTalkSolitaire/ViewModels/GameViewModel.swift:319-327 | only the won flag changes, and it is set when the foundations hold 52 cards; it is never cleared |
| Engine.Undo | TrashTalkSolitaire/ViewModels/GameViewModel.swift:275-313 | undo with an empty stack changes nothing; otherwise it pops one entry, clears the selection, lowers the move count by one floored at 0, and for a waste move sets the waste to the entry's snapshot; on the piles (`PilesUndone`) the destination loses its last entry-many cards, a tableau source first has its flipped top turned back down and then gets the cards reinserted at the recorded index, a foundation source gets them appended, and every pile the entry did not touch is unchanged; the waste changes only for a waste-sourced entry, and no field other than the piles and the move count changes |
| Engine.UndoFixed | test_undo_bug.swift:105-115 | as `Engine.Undo`, with the same pile effects (`PilesUndone`) and the same frame, except that a waste move's cards are appended back to the current waste |
| Engine.TopCardForSource | TrashTalkSolitaire/ViewModels/GameViewModel.swift:160-170 | a card is found exactly when the source is ready, and it is the first card of the run |
| Engine.DestinationFromTap | TrashTalkSolitaire/ViewModels/GameViewModel.swift:135-144 | a tapped tableau or foundation pile is the destination; the waste is never one |
| Engine.FirstFoundationFor | TrashTalkSolitaire/ViewModels/GameViewModel.swift:146-158 | the chosen foundation is the lowest-numbered one that accepts the card; none is chosen only if none accepts |
| Engine.TryAutoFoundation | TrashTalkSolitaire/ViewModels/GameViewModel.swift:146-158 | with no card at the source, or no foundation that takes it, nothing changes; otherwise the result is exactly the move to the lowest-numbered foundation that takes the card, which succeeds or fails as that move does; a success pushes exactly one entry |
| Engine.AutoFoundationMovesLoneCard | TrashTalkSolitaire/ViewModels/GameViewModel.swift:146-158 | a ready source whose run is a single card that some foundation takes is moved, and it goes to the lowest-numbered such foundation |
| Engine.TapCard | TrashTalkSolitaire/ViewModels/GameViewModel.swift:99-127 | a won game ignores taps; a first tap selects; re-tapping the selection is the foundation attempt followed by clearing the selection; a tap on another tableau or foundation pile executes the move from the selection when the move is accepted and clears the selection, and otherwise selects the tapped source with nothing else changed; a tap on the waste selects it; the undo stack only grows |
| Engine.TapTwiceIsDoubleTap | TrashTalkSolitaire/ViewModels/GameViewModel.swift:99-133 | with nothing selected, tapping the same source twice is the same as a double tap on it |
| Engine.TapThenTapMoves | TrashTalkSolitaire/ViewModels/GameViewModel.swift:99-127 | with nothing selected, tapping a ready source and then a different pile that accepts its run performs exactly that move, with one more undo entry |
| Engine.DoubleTapCard | TrashTalkSolitaire/ViewModels/GameViewModel.swift:129-133 | on a game not won, a double tap is the foundation attempt on the state with the selection cleared; it either changes nothing else or pushes exactly one entry |
| Engine.WasteTarget | TrashTalkSolitaire/ViewModels/GameViewModel.swift:339-349 | the chosen foundation is the lowest-numbered one that accepts the waste top; none is chosen only if no foundation accepts it |
| Engine.TableauTarget | TrashTalkSolitaire/ViewModels/GameViewModel.swift:351-365 | piles are scanned from `from` in order: the chosen pile's top goes onto the chosen foundation, which is the lowest-numbered taker, and no earlier non-empty pile has a top that fits; once the waste has moved in the pass, only the first non-empty pile is tried, so a result means every earlier pile is empty and no result means that first non-empty pile's top fits nowhere; without a waste move, no result means no tableau top fits anywhere |
| Engine.FoundationStepSucceeds | TrashTalkSolitaire/ViewModels/GameViewModel.swift:331-367 | a single top card that a foundation accepts is moved there and raises the foundation total by one |
| Engine.AutoComplete | TrashTalkSolitaire/ViewModels/GameViewModel.swift:331-375 | auto-complete does nothing unless the stock is empty and every tableau card is face-up; it stops only when no card can go to a foundation; every card moved adds one entry on top of the unchanged stack and one to the move count; the won flag is set exactly when the foundation total crosses to 52; the foundation total never drops, the cards are kept, and the selection, stock, modes, time and scores are unchanged |
| EngineLaws.MoveRelocatesRun | TrashTalkSolitaire/ViewModels/GameViewModel.swift:220-246 | the run leaves the source, is appended in order to the destination, only the newly exposed top may be flipped, and no other pile changes |
| EngineLaws.UndoReversesMove | TrashTalkSolitaire/ViewModels/GameViewModel.swift:275-311 | undo right after a move restores the tableau and foundations exactly, faces included, with either undo variant |
| EngineLaws.UndoFixedConservesAfterDraws | test_undo_bug.swift:105-115 | after a move and any number of draws, the appending undo leaves the same cards as before the move |
| EngineLaws.ShippedUndoLosesDrawnCard | TrashTalkSolitaire/ViewModels/GameViewModel.swift:302-304 | after a waste move and one draw, the shipped undo leaves the drawn card off the table, so the total drops by one |
| EngineLaws.FixedUndoKeepsDrawnCard | test_undo_bug.swift:105-115 | in the same sequence the appending undo keeps every card |
| EngineLaws.ExecuteMoveKeepsOrientation | TrashTalkSolitaire/ViewModels/GameViewModel.swift:240-246 | a move whose run starts at a face-up card keeps every tableau pile a face-down prefix followed by a face-up suffix |
| EngineLaws.ExecuteMoveKeepsFoundationsOrdered | TrashTalkSolitaire/ViewModels/GameViewModel.swift:193-208 | moves keep every foundation an ace-up single-suit sequence |
| EngineLaws.WonIffFoundationsFull | test_gameplay.swift:297 | with ordered foundations, a foundation total of 52 is the same as four foundations of 13 |
| EngineLaws.InPlayIsComplementOfFoundations | TrashTalkSolitaire/ViewModels/GameViewModel.swift:319-327 | with a full set on the table, the cards in play are 52 minus the foundation total |
| Simulation.Deal | test_gameplay.swift:63-83 | the script's deal builds the triangular columns, a face-down stock of the remaining cards, empty waste and foundations, and keeps the cards |
| Simulation.DrawCount | test_gameplay.swift:85-98 | a draw turns 3 cards in draw-three mode when the stock has at least 3, otherwise as many as are left up to 3, and 1 in draw-one mode |
| Simulation.DrawCards | test_gameplay.swift:90-97 | drawing n cards takes them off the stock's tail and puts them on the waste face-up in reversed order |
| Simulation.Draw | test_gameplay.swift:85-98 | an empty stock takes the whole waste back reversed and face-down; otherwise the drawn cards move to the waste; the tableau and foundations do not change |
| Simulation.DrawConserves | test_gameplay.swift:85-98 | a draw keeps the card multiset, the total and the pile shape |
| Simulation.CanMoveToFoundation | test_gameplay.swift:100-107 | the check is exactly the foundation stacking rule on that pile's top |
| Simulation.CanMoveToTableau | test_gameplay.swift:109-117 | an empty pile takes exactly kings; otherwise the check is the tableau stacking rule on the pile's top |
| Simulation.MoveWasteToFoundation | test_gameplay.swift:119-124 | succeeds exactly when the waste top may go to that foundation, and then removes it from the waste and appends it there, leaving stock, tableau, mode and the other foundations alone; otherwise nothing changes |
| Simulation.MoveWasteToTableau | test_gameplay.swift:126-132 | succeeds exactly when the waste top may go to that pile, and then removes it from the waste and appends it face-up, leaving stock, foundations, mode and the other piles alone; otherwise nothing changes |
| Simulation.MoveTableauToFoundation | test_gameplay.swift:134-144 | succeeds exactly when the index names the top card and the foundation accepts it; then the source is cut at the index with its new top turned face-up, the card is appended to the foundation, and stock, waste, mode and the other piles stay as they were; otherwise nothing changes |
| Simulation.MoveTableauToTableau | test_gameplay.swift:146-161 | succeeds exactly when the index is in range and the destination accepts that card, and then appends the whole run in order; a different source is cut at the index with its new top turned face-up, a move onto its own pile leaves the table as it was, and stock, waste, foundations, mode and the other piles stay as they were |
| Simulation.SamePileMoveIsIdentity | test_gameplay.swift:146-161 | an accepted move of a run back onto its own pile gives back the table unchanged |
| Simulation.FindAllMoves | test_gameplay.swift:163-210 | a move is listed exactly when it is legal, and tableau runs listed start at or after the first face-up card and never target their own pile |
| Simulation.ListedMoveSucceeds | test_gameplay.swift:163-210 | every listed move succeeds on the same table |
| Simulation.ApplyConserves | test_gameplay.swift:119-161 | every move keeps the card multiset, whether it succeeds or not |
| Simulation.ListedMoveOriented | test_gameplay.swift:140-142 | listed moves keep every tableau pile a face-down prefix followed by a face-up suffix |
| Simulation.ApplyKeepsFoundationsOrdered | test_gameplay.swift:100-107 | moves keep every foundation an ace-up single-suit sequence |
| Simulation.WinTestAgrees | test_gameplay.swift:297 | four foundations of 13 is the same as foundation sizes summing to 52 |
| Simulation.MissingKeys | test_gameplay.swift:212-229 | a key is reported missing exactly when it is in the key order and absent from the table |
| Simulation.DuplicateKeys | test_gameplay.swift:212-229 | a key is reported with its count exactly when it occurs more than once |
| Simulation.ValidateCards | test_gameplay.swift:212-229 | the result is valid exactly when nothing is missing and nothing is duplicated |
| Simulation.ValidateCardsExact | test_gameplay.swift:212-229 | the validator accepts exactly the tables holding every key once |
| UndoReplay.Setup | test_undo_bug.swift:58-68 | for a 52-card deck, the stock is the first 26 cards and the column the last 26, with empty waste and undo stack |
| UndoReplay.Draw | test_undo_bug.swift:70-75 | a draw moves the stock's last card face-up onto the waste, or does nothing on an empty stock; the total is unchanged |
| UndoReplay.DrawTimes | test_undo_bug.swift:70-75 | k draws take the last min(k, stock size) stock cards onto the waste and keep the total |
| UndoReplay.MoveFromWaste | test_undo_bug.swift:77-91 | fails exactly on an empty waste; otherwise moves the waste top onto the column and records exactly that card and the prior waste |
| UndoReplay.UndoBuggy | test_undo_bug.swift:93-103 | a no-op on an empty stack; otherwise pops, removes the run from the column and restores the waste snapshot |
| UndoReplay.UndoFixed | test_undo_bug.swift:105-115 | a no-op on an empty stack; otherwise pops, removes the run from the column and appends it back to the waste |
| UndoReplay.UndoFixedRestoresMove | test_undo_bug.swift:105-115 | with no draw in between, the appending undo restores waste, column, stock and undo stack exactly |
| UndoReplay.UndoFixedConservesAfterDraws | test_undo_bug.swift:170-178 | with any number of draws in between, the appending undo keeps every card |
| UndoReplay.UndoBuggyLosesDraws | test_undo_bug.swift:129-150 | with k draws in between, the snapshot undo loses exactly the k drawn cards |
| UndoReplay.ScenarioTotals | test_undo_bug.swift:125-178 | draw, move, draw, draw, undo on 52 cards ends with 50 cards under the snapshot undo and 52 under the appending one |
| Commentary.SafeGet | TrashTalkSolitaire/Commentary/Commentator.swift:188-191 | an element is returned exactly when the index is in range, and it is the element at that index |
| Commentary.DestPileWasEmpty | TrashTalkSolitaire/Commentary/Commentator.swift:72-76 | the pile counts as "was empty" exactly when it is empty or a lone king |
| Commentary.AnalyzeMoveWith | TrashTalkSolitaire/Commentary/Commentator.swift:16-70 | a foundation move gets praise, or brilliant exactly for a king; roast needs a buried destination and no reveal; terrible needs a foundation source onto the tableau; neutral means no earlier rule matched |
| Commentary.AnalyzeFollowsRules | TrashTalkSolitaire/Commentary/Commentator.swift:25-69 | the classifier returns the mood of the first matching rule in the fixed order (king to empty, reveal, bury, terrible, big move), else neutral |
| Commentary.FirstMatch | TrashTalkSolitaire/Commentary/Commentator.swift:35-69 | the mood of the first true rule is chosen; with no true rule the mood is neutral |
| Commentary.RevealNeverFiresAfterMove | TrashTalkSolitaire/Commentary/Commentator.swift:43-48 | on the state after a move between different piles, the reveal rule cannot fire, because the exposed card was already turned face-up |
| Commentary.KingRuleAfterMove | TrashTalkSolitaire/Commentary/Commentator.swift:36-40 | on the post-move state, the king rule fires exactly for a lone king moved onto an empty pile |
| Commentary.KingRuleFixedAfterMove | TrashTalkSolitaire/Commentary/Commentator.swift:36-40 | with the repaired test, the king rule fires exactly for a run headed by a king moved onto an empty pile |
| Commentary.KingPairMissesPraise | TrashTalkSolitaire/Commentary/Commentator.swift:72-76 | moving a two-card king run onto an empty pile is rated neutral as written and praise with the repaired test |
| Statistics.Unlock | TrashTalkSolitaire/Models/StatsManager.swift:227-237 | unlocking adds the achievement; an already unlocked one changes nothing; a new one is announced |
| Statistics.UnlockIdempotent | TrashTalkSolitaire/Models/StatsManager.swift:227-237 | unlocking twice is the same as unlocking once |
| Statistics.CheckAchievements | TrashTalkSolitaire/Models/StatsManager.swift:183-231 | the unlocked set grows by exactly the achievements whose thresholds the stats meet, and no counter changes; the banner is left as it was when nothing new was earned, and otherwise shows the last newly earned achievement in the order of the checks |
| Statistics.UnlockEachBanner | TrashTalkSolitaire/Models/StatsManager.swift:227-231 | running the checks of any duplicate-free order leaves the banner alone when none is new, and otherwise leaves it on the last new one in that order |
| Statistics.RecordWin | TrashTalkSolitaire/Models/StatsManager.swift:137-168 | a win adds one game and one win, extends the streak and raises the longest streak if passed, keeps the best time as the smaller one, adds the Vegas score, counts today's wins, and adds exactly the achievements whose thresholds the updated counters meet |
| Statistics.RecordLoss | TrashTalkSolitaire/Models/StatsManager.swift:170-179 | a loss adds one game, resets the streak, leaves wins, best time, longest streak, Vegas total and daily counters alone, and unlocks the century achievement at 100 games, showing it in the banner when it is new; otherwise the banner is kept |
| Statistics.ResetStats | TrashTalkSolitaire/Models/StatsManager.swift:251-262 | every counter is zero, the date is cleared and no achievement remains; the banner is left as it was |
| Statistics.RecordKeepsConsistent | TrashTalkSolitaire/Models/StatsManager.swift:137-179 | wins never exceed games played and the current streak never exceeds the longest, across a win or a loss |
| Statistics.BestTimeIsFastest | TrashTalkSolitaire/Models/StatsManager.swift:146-148 | after a series of wins, the best time is at most every recorded time and at most a prior best, and it is one of them |
| Statistics.WinsOnOneDay | TrashTalkSolitaire/Models/StatsManager.swift:155-162 | wins on a new day restart the daily count, so it equals the number of wins that day |
| Statistics.SameDayWins | TrashTalkSolitaire/Models/StatsManager.swift:155-162 | wins on the same day as the last win add to the daily count |
| Statistics.FormattedVegasCumulative | TrashTalkSolitaire/Models/StatsManager.swift:287-293 | the string starts with "+$" exactly for non-negative totals and with "-$" otherwise |
| Statistics.VegasRoundTrip | TrashTalkSolitaire/Models/StatsManager.swift:287-293 | reading the formatted Vegas total back gives the total |
| Statistics.FormattedBestTime | TrashTalkSolitaire/Models/StatsManager.swift:280-285 | no best time shows "--:--"; otherwise minutes, a colon and two second digits |
| Statistics.BestTimeRoundTrip | TrashTalkSolitaire/Models/StatsManager.swift:280-285 | reading the formatted best time back as minutes and seconds gives the time, and the seconds' tens digit is between 0 and 5 |

## Left out

- Rendering, layout, drag gestures and hit-testing are left out: they are UI with no stateable behaviour. This covers GameView.swift, CardView.swift, CommentaryBubble.swift and the splash screen.
- Speech, sound effects and haptics are left out because they are calls into AVFoundation and UIKit; the engine's calls to them are dropped.
- The one-second timer and the delayed clearing of the achievement banner are left out because they are timing and concurrency. `elapsedSeconds` is only carried along.
- Random shuffles, random comment strings and commentary text are left out because they are randomness. Shuffles take swap lists instead, and the classifier returns only the mood.
- Reading and writing UserDefaults and formatting today's date are left out because they are persistence and clocks; settings and the date string are parameters.
- `winPercentage` is left out because it is floating point.
- The game view's elapsed-time string is left out because it is display formatting; the stats best-time string is modelled.
- The card's UUID is left out: cards are compared by suit, rank and face, and identity for conservation is (suit, rank).
- Vegas score deltas, hard-mode shuffling and hints are left out because the code does not implement them. Only the fields and the difficulty enum exist.
- The random-play driver loops of the scripts and the UI tests are left out: they only print and drive the functions modelled here.
- Swift's 64-bit `Int` is left out: counters are unbounded integers, so overflow is not modelled.
- EngineLaws.ExecuteMoveKeepsOrientation: requires that a tableau run start at a face-up card. The engine checks only the run's first card; that restriction lives in the game view (TrashTalkSolitaire/Views/GameView.swift:231-238).
- Commentary.RevealNeverFiresAfterMove: requires different source and destination piles. A tableau move back onto its own pile is accepted by the engine when the pile's own top fits, and there the reveal rule can still fire.
- Commentary.AnalyzeMoveWith: requires a non-empty run, because the classifier force-unwraps the run's first card.
- Statistics.BestTimeIsFastest: requires positive win times, because a time of 0 means "no best time" in the record.
- Statistics.RecordKeepsConsistent: requires a non-negative win time, since the timer never produces a negative one.
- Engine.TapCard: requires in-range piles even for a first tap, which only stores the source; the view only produces in-range taps (TrashTalkSolitaire/ViewModels/GameViewModel.swift:123-126).
- Engine.DoubleTapCard: requires in-range piles, where Swift's `topCardForSource` answers nil for an out-of-range tableau pile and the double tap does nothing (TrashTalkSolitaire/ViewModels/GameViewModel.swift:165); the view only produces in-range taps.
- Engine.Undo: requires `UndoReady`, i.e. that the top entry fits the piles (`EntryFits`). Swift traps in `removeLast` or `insert(contentsOf:at:)` when it does not (TrashTalkSolitaire/ViewModels/GameViewModel.swift:296-306), and that trap is excluded. A stack built by play never reaches it: entries are undone last-in-first-out, so the cards an entry moved are back on top of its destination when it is undone, and draws do not touch the tableau or foundations. `EngineLaws.UndoReversesMove` and `EngineLaws.UndoFixedConservesAfterDraws` establish `UndoReady` for the states they cover.
- Engine.UndoFixed: requires `UndoReady` for the same reason as `Engine.Undo`; the trap is excluded.
- UndoReplay.UndoBuggy: requires `UndoFits`: the column holds at least as many cards as the top entry moved. Swift's `removeLast` traps otherwise (test_undo_bug.swift:97), and that trap is excluded. The script only undoes right after moving the waste top onto the column, with nothing taken off the column in between, so it never reaches it.
- UndoReplay.UndoFixed: requires `UndoFits` for the same reason as `UndoReplay.UndoBuggy` (test_undo_bug.swift:109); the trap is excluded.
- Engine.ExecuteMove: requires in-range pile indices, because Swift traps on an out-of-range destination or foundation index.

## Findings

| source | as written | input that shows it | evidently intended | confidence | as-written member | corrected member |
|---|---|---|---|---|---|---|
| TrashTalkSolitaire/ViewModels/GameViewModel.swift:302-304 | undo of a waste move sets the waste to the snapshot taken at move time | move the waste top to a pile, draw one card, undo: the drawn card is on neither stock nor waste, so the table holds 51 cards | append the moved cards back onto the current waste | not executed | EngineLaws.ShippedUndoLosesDrawnCard | EngineLaws.UndoFixedConservesAfterDraws |
| TrashTalkSolitaire/Commentary/Commentator.swift:72-76 | on the state after the move, "destination was empty" holds only for a pile that is empty or a lone king | move a king with a queen on it from index 0 of its pile onto an empty pile: the destination now holds two cards, so the move is rated neutral | a run moved onto an empty pile leaves exactly the run there, so the test should compare the pile's size with the run's | not executed | Commentary.KingPairMissesPraise | Commentary.KingRuleFixedAfterMove |
