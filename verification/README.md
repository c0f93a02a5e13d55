# A verified model of the UNO server's core

The server runs UNO rounds inside rooms. A rules engine holds one round: two piles, two to six hands, the turn, a
stacked penalty, a pending colour choice, the challenges for a missed "UNO" call and the players who have gone out. A
room holds the engine, its members and their connections, a turn timer and a collection timer; all changes to it go
through one mailbox that a single loop empties. Rooms are written to a snapshot store after every command and restored
after a restart; a finished round is written to a match store under ids from a generator.

This project models those parts in Dafny 4.11 and proves what they promise. `dafny verify dfyconfig.toml` checks it.

## How it is organised

| files | content |
|---|---|
| `Cards`, `Piles`, `Shuffling`, `Slices` | the deck and its totals, dealing with recycling, the shuffle and the slices on arrays |
| `Rules`, `TurnOrder` | a round as a value and what each command does to it |
| `Invariant`, `Preservation`, `Setup` | the invariant of a round, that every command keeps it, and that new rounds start in it |
| `Engine`, `Validation` | the engine object and the snapshot check, step by step as in the program, proved equal to the rules |
| `Snapshots`, `Runs` | saving, checking, restoring; whole runs of commands |
| `Winners`, `Penalties`, `Challenges`, `Failures`, `Views`, `Automation` | theorems about runs, refusals, views and automatic play |
| `Acceptance`, `Turns`, `Calls`, `Sights`, `Openings`, `Policy` | what a player can count on: which cards go, what each command does, what he is shown, how a round begins, what the server plays |
| `Rooms`, `RoomInvariant`, `RoomBinding`, `RoomIdentity`, `RoomSnapshots` | a room as a value, its commands, its invariant, its snapshots |
| `Endings`, `RoomEndings` | no dead ends: every unfinished round can be ended, in its room too |
| `AcceptedRooms`, `RoomPromises` | which accepted records a room can go on from; what holds for players over whole runs and crashes |
| `RoomActor`, `RoomRestore`, `RoomLoop` | the room object, opening and restoring, the mailbox loop, proved equal to the values |
| `RoomCommands`, `Seats`, `Replies`, `Saves` | what members can count on: when commands are accepted, what happens to a seat, what callers hear, what is stored |
| `RoomTimers`, `RoomCollection` | what each command does to the two timers |
| `Mailboxes`, `MailboxRuns`, `RoomRuns` | submitters, timers and loop as a state machine; theorems over all its runs |
| `Settlement`, `IdGen` | a finished round in the match store; ids |

Three layers run through it. What a piece of the program *does* is a function on values (`Rules.Apply`, `Rooms.Execute`,
`Mailboxes.Advanced`). The object that does it, with its fields, loops and rollbacks, is a class whose methods are proved
to compute that function on the whole state. What that *means* is proved about the functions in words of its own: which
cards of the deck go on the pile, whose turn is next by the seats beside each other, what is shown and heard, what a run
has counted. On top of it stand the theorems about all runs.

Some promises the code does not keep by itself. Each comes with its exact condition:

* The snapshot check of the engine accepts one kind of state that play cannot continue from: an opening colour choice
  with a player already out (a *dead opening*). `Invariant.Inv` carries the missing condition, `Snapshots.KeepsValidIff`
  shows that it is exactly what is missing, and games that were dealt never get there.
* The check of a saved room does not ask whether a playing room's engine is finished, whether it is at a dead opening, or
  whether a match has a real starting time. `AcceptedRooms.AcceptedRoomIff` shows that these are exactly the records a
  room cannot go on from in order. Around a finished engine a room is stuck for ever and never settles (`StuckForEver`,
  `FrozenIff`, `AgreesForEver`, `RoomEndings.RestoredCanSettleIff`); the others lose their next record
  (`DeadOpeningIsLost`, `UndatedIsLost`). Rooms that were opened never save such a record
  (`RoomRuns.EverySavedRoomRestores`).
* Ids strictly increase, for any clock, exactly in runs where no request comes back to a millisecond whose wait has failed
  (`IdGen.FreshIDsIncreaseIff`).
* Walking out of a round and settling a match survive a crash exactly when the room could be written, or its record
  deleted, at that moment (`RoomPromises.CrashBarsIff`, `RoomPromises.CrashAfterSettling`).

## Conventions

* The clock, the random picks, the shuffle and the outcome of store operations are inputs of each command. A shuffle
  that reports success permutes its cards; one that fails may do anything to its copy.
* `exact` in the invariant tells games that were dealt (`true`) from states that merely passed the snapshot check
  (`false`); what is said of rooms holds for both.
* A stopped timer may still deliver its event: a timer once armed stays in `armed` until it fires. The theorems hold for
  every such delay.
* Instants are integers and 0 is Go's zero time.
* The mailbox steps are `Submit`, `Fire` (a timer hands over its event) and `Advance` (take a job, carry it out, reply, or
  drain one job); a crash may come between any two of them.

## Model

| member | source | states |
|---|---|---|
| Cards.NewStandardDeck | internal/game/uno/deck.go:22-50 | The nested loops build exactly the 108 cards of the standard deck, ids 1 to 108 in order. |
| Cards.CanonicalIsValid | internal/game/uno/card.go:71-86 | Every card of the standard deck passes the card check. |
| Cards.DeckTotals | internal/game/uno/deck.go:22-50 | The deck is worth 1240 points, its penalty cards add up to 32 draws, and four of them are wild draw fours. |
| Cards.SumByPermutation | internal/game/uno/card.go:98-111 | The points of a pile do not depend on its order. |
| Shuffling.SecureShuffle | internal/game/uno/deck.go:52-64 | The in-place Fisher-Yates loop leaves what the drawn indices give; it is always a permutation, and it stops at the first index that cannot be drawn. |
| Shuffling.ShuffledPermutes | internal/game/uno/deck.go:52-64 | Whatever indices are drawn, the cards stay the same multiset. |
| Shuffling.EveryOrderReachable | internal/game/uno/deck.go:52-64 | Every order of the cards is the result of some drawn indices. |
| Shuffling.EveryOrderOnce | internal/game/uno/deck.go:52-64 | Two different draws of indices never give the same order (distinct cards): with fair indices every order is equally likely. |
| Piles.DealConserves | internal/game/uno/engine_helpers.go:80-136 | A deal moves cards: dealt cards and both piles afterwards are together exactly both piles before, recycling included. |
| Piles.DealKeepsTop | internal/game/uno/engine_helpers.go:92-108 | The discard top never moves, recycling or not. |
| Piles.DealCount | internal/game/uno/engine_helpers.go:110-136 | With a working shuffle a deal of n cards yields exactly min(n, draw pile + discard pile - 1) cards. |
| Piles.DealFailsIff | internal/game/uno/engine_helpers.go:110-127 | A deal fails exactly when it has to recycle and the shuffle of the buried discards fails. |
| Piles.DealOneByOne | internal/game/uno/engine_helpers.go:110-126 | Dealing card by card with recycling in between equals the one-piece description of a deal. |
| Piles.FullDeckIff | internal/game/uno/snapshot.go:257-292 | 108 cards with distinct ids that are all cards of the deck are exactly a permutation of the deck: the loop check is complete. |
| TurnOrder.WhoComesNext | internal/game/uno/engine_helpers.go:139-164 | A skip passes over exactly the next player, a reverse gives the turn back the way it came (straight back with two players), anything else passes it on. |
| TurnOrder.TurningBack | internal/game/uno/engine_helpers.go:24-34 | A step one way and a step the other way lead back to the same seat. |
| TurnOrder.EverybodyOncePerRound | internal/game/uno/engine_helpers.go:24-34 | Every seat is reached in exactly one number of steps below the number of players. |
| Engines.WrapAround | internal/game/uno/engine_helpers.go:24-34 | The correction of a negative truncated remainder is the position on the circle, for all integers. |
| Preservation.ApplyInv | internal/game/uno/actions.go:10-246 | Every command with any arguments, any permuting or failing shuffle and any clock keeps the full invariant: the 108 cards, turn, colour, penalty, candidates, challenges, result. |
| Preservation.PlayCardInv | internal/game/uno/actions.go:10-55 | Playing a card keeps the invariant, accepted or refused. |
| Preservation.PickColorInv | internal/game/uno/actions.go:57-86 | Choosing a colour keeps the invariant, the early return for an opening wild included. |
| Preservation.DrawCardInv | internal/game/uno/actions.go:88-139 | Drawing keeps the invariant: penalties, recycling, rollback, drawing nothing. |
| Preservation.CatchInv | internal/game/uno/actions.go:201-227 | Catching a missed call keeps the invariant, also in the middle of a penalty chain or a draw decision. |
| Invariant.ApplyCardEffectInv | internal/game/uno/engine_helpers.go:139-181 | A card effect turns a state that waits for it into one that keeps the invariant, finishing the round where nothing is pending. |
| Setup.NewGameInv | internal/game/uno/engine.go:7-52 | With permuting shuffles a new game is refused or starts in the invariant with its players in order, one discard that is no wild draw four, and hands of seven (two more after an opening draw two). |
| Setup.OpeningConverges | internal/game/uno/engine.go:85-107 | With a shuffle that keeps the order every valid table gets its game, and the opening card is the first of the top five that is no wild draw four. |
| Setup.DealtInTurn | internal/game/uno/engine.go:71-83 | Hand s is every n-th card of the pile from the s-th on, round by round. |
| Setup.DrawOpeningFacts | internal/game/uno/engine.go:85-107 | Looking for the opening card loses no card and never accepts a wild draw four. |
| Openings.NewGameBegins | internal/game/uno/engine.go:7-143 | A new game is refused for a bad table, and otherwise begins as its opening card says: who is on turn, which way round, who has drawn two, who says a colour, seven cards each, the rest to draw. |
| Openings.ConfigMeans | internal/game/uno/state.go:146-160 | A dealer who is not seated is refused; a positive window is kept, any other becomes four seconds. |
| Engines.Engine.PlayerSeat | internal/game/uno/engine_helpers.go:6-14 | The loop finds the first seat of a player, or none. |
| Engines.Engine.StepFrom | internal/game/uno/engine_helpers.go:24-34 | With Go's truncating remainder the computed seat is the one on the circle. |
| Engines.Engine.RemoveHandCard | internal/game/uno/engine_helpers.go:58-64 | The card leaves the hand; the rest keep their order. |
| Engines.Engine.RecycleDiscardPile | internal/game/uno/engine_helpers.go:92-108 | Recycling keeps the top; a failed shuffle changes neither pile. |
| Engines.Engine.DrawCardsTo | internal/game/uno/engine_helpers.go:110-136 | The loop with rollback gives the whole deal or leaves everything as it was; candidacy and challenge follow the hand. |
| Engines.Engine.ApplyCardEffect | internal/game/uno/engine_helpers.go:139-162 | The step-by-step update is the specified effect on the whole state. |
| Engines.Engine.FinishIfResolved | internal/game/uno/engine_helpers.go:166-181 | Filters the candidates and finishes exactly when nothing is pending and one is left. |
| Engines.Engine.FinishRound | internal/game/uno/engine_helpers.go:184-220 | The scoring loops give the specified result and clear the turn state. |
| Engines.Engine.Play | internal/game/uno/actions.go:10-55 | The whole new state and reply equal the specified play; every error leaves the state alone. |
| Engines.Engine.ChooseColor | internal/game/uno/actions.go:57-86 | The whole new state and reply equal the specified colour choice. |
| Engines.Engine.Draw | internal/game/uno/actions.go:88-139 | The whole new state and reply equal the specified draw. |
| Engines.Engine.Pass | internal/game/uno/actions.go:141-158 | The whole new state and reply equal the specified pass. |
| Engines.Engine.CallUNO | internal/game/uno/actions.go:184-199 | The whole new state and reply equal the specified call. |
| Engines.Engine.CatchUNO | internal/game/uno/actions.go:201-227 | The whole new state and reply equal the specified catch. |
| Engines.Engine.ExpireUNOChallenges | internal/game/uno/actions.go:229-246 | Drops and reports exactly the expired challenges, in seat order. |
| Engines.Engine.ViewFor | internal/game/uno/view.go:51-111 | The loops build exactly the specified view. |
| Engines.Engine.Snapshot | internal/game/uno/snapshot.go:62-100 | The loops build exactly the specified snapshot. |
| Engines.Engine.DealInitialHands | internal/game/uno/engine.go:71-83 | Seven rounds in seat order. |
| Engines.Engine.DrawOpeningCard | internal/game/uno/engine.go:85-107 | The rejection loop gives the specified opening card. |
| Engines.Engine.ApplyOpeningCard | internal/game/uno/engine.go:109-143 | The opening effect on the whole state. |
| Validation.NewEngine | internal/game/uno/engine.go:7-52 | The constructor builds exactly the specified new game under the normalized configuration, or returns its error. |
| Validation.NormalizeConfig | internal/game/uno/state.go:146-160 | Refuses a dealer who is not seated and replaces a window that is not positive by the default. |
| Validation.ValidatePlayerIDs | internal/game/uno/engine.go:54-69 | The loop with its seen map accepts exactly two to six distinct positive ids. |
| Slices.CloseGap | internal/game/uno/engine_helpers.go:58-64 | Shifting inside the backing array removes one element and keeps the order of the others. |
| Slices.RemoveFromHand | internal/game/uno/engine_helpers.go:58-64 | Taking a card out of a hand slice. |
| Slices.RemoveCandidate | internal/game/uno/engine_helpers.go:232-243 | Removing a candidate in its own array. |
| Slices.KeepEmptyHanded | internal/game/uno/engine_helpers.go:170-177 | Filtering the candidates into the front of the array that is being read gives exactly those still without cards. |
| Snapshots.InvValid | internal/game/uno/snapshot.go:149-370 | Every state in the invariant saves to a snapshot the check accepts. |
| Runs.EverySaveRestores | internal/game/uno/snapshot.go:62-146 | After every command of every run the saved game is accepted and restores to the very same state. |
| Runs.ResumeAnywhere | internal/game/uno/snapshot.go:103-146 | Saving and restoring at any moment changes nothing that happens later in the run. |
| Snapshots.RestoreSnapshot | internal/game/uno/snapshot.go:103-146 | Restoring what was saved gives back every persisted field. |
| Snapshots.SnapshotRestored | internal/game/uno/snapshot.go:62-146 | Saving what was restored gives the same snapshot with its challenges in seat order; identical if and only if they were in that order. |
| Snapshots.OneVersion | internal/game/uno/snapshot.go:149-180 | A snapshot of another version is refused, whatever else it holds. |
| Snapshots.KeepsValidIff | internal/game/uno/snapshot.go:149-255 | A checked snapshot keeps passing the check after every command if and only if it is not an opening colour choice with a player already out and no penalty pending. |
| Snapshots.DeadOpeningExists | internal/game/uno/snapshot.go:215-255 | Such snapshots exist and are accepted. |
| Runs.RestoredRunsStayValid | internal/game/uno/snapshot.go:103-146 | From any other accepted snapshot every run of commands only ever saves accepted snapshots. |
| Validation.Validate | internal/game/uno/snapshot.go:149-170 | The check with all its loops accepts exactly the valid snapshots. |
| Validation.ValidateShape | internal/game/uno/snapshot.go:177-213 | Accepts exactly the snapshots of valid shape. |
| Validation.ValidateCards | internal/game/uno/snapshot.go:257-292 | The seen-map loop over piles and hands accepts exactly when all 108 cards are there once each. |
| Validation.ValidatePending | internal/game/uno/snapshot.go:294-326 | Accepts exactly consistent pending actions and challenges. |
| Validation.ValidateResult | internal/game/uno/snapshot.go:328-370 | The summing loop accepts exactly the result that the hands and the first candidate give. |
| Validation.RestoreEngine | internal/game/uno/snapshot.go:103-146 | The engine is rebuilt from exactly the accepted snapshots, under the normalized configuration. |
| Winners.FinishedIff | internal/game/uno/engine_helpers.go:166-220 | A reachable round is over exactly when somebody has no cards and neither a penalty nor a colour choice is pending. |
| Winners.CandidatesAreOut | internal/game/uno/engine_helpers.go:223-243 | While a round goes on the candidates are exactly the empty-handed seats, each once. |
| Winners.CandidatesInOrder | internal/game/uno/engine_helpers.go:223-243 | In every run the candidates stand in the order in which their hands emptied. |
| Winners.WinnerFirstOut | internal/game/uno/engine_helpers.go:166-220 | The winner of a run is the one who emptied his hand first among those still without cards. |
| Winners.FinishedStays | internal/game/uno/actions.go:10-246 | A finished game is never changed again. |
| Penalties.PenaltyIsChainSum | internal/game/uno/engine_helpers.go:139-162 | In every run what is owed is even and, until a catch recycles the pile under the chain, is the penalty sum of the chain on top of the discard pile less a wild still waiting for its colour, so at most 32; while it is owed in play the top is a penalty card. |
| Penalties.ChainStep | internal/game/uno/actions.go:100-115 | Every command keeps the chain description. |
| Acceptance.PlayAcceptedIff | internal/game/uno/actions.go:10-55 | A card is accepted exactly if the round is in play, it is its holder's turn, it is the drawn one during a draw decision, and it goes on the pile - wild, of the colour in play, or with the face of a coloured top - or, while a penalty is owed, draws itself. |
| Acceptance.HowManyAreTaken | internal/game/uno/card.go:114-128 | Of the other 107 cards of the deck exactly 38 would be taken on a coloured top, 35 on a zero, 32 on a wild card; while a penalty is owed, exactly the twelve draw cards of the deck. |
| Acceptance.PlayRefusals | internal/game/uno/actions.go:10-32 | Which of the things that can be wrong with a play its player hears of. |
| Turns.DrawAcceptedIff | internal/game/uno/actions.go:88-136 | A draw is accepted exactly from the player on turn while nothing else is pending, unless the shuffle it needs fails. |
| Turns.DrawMeans | internal/game/uno/actions.go:88-139 | What is owed, or one card, as far as there are cards; only the drawer's hand changes; the turn passes to the seat beside in the direction of play unless the one card drawn may be played; paying ends the round exactly if a candidate is still out. |
| Turns.DrawnIsOffered | internal/game/uno/actions.go:116-139 | The drawn card is left to be played exactly if it goes, and playing it is then accepted. |
| Turns.PassMeans | internal/game/uno/actions.go:141-158 | A pass is accepted exactly from the player who has drawn and may play; nothing but the turn moves, to the seat beside. |
| Turns.PlayMeans | internal/game/uno/actions.go:10-55 | A coloured card leaves the hand for the pile, its colour is in play, a draw two adds two, a skip passes over one seat, a reverse turns round; the round ends exactly if the hand is empty and nothing is owed. |
| Turns.WildMeans | internal/game/uno/actions.go:34-55 | A wild card leaves the hand for the pile, and its player owes a colour before anything else happens. |
| Turns.ColorMeans | internal/game/uno/actions.go:57-86 | One of the four colours from its chooser and nobody else; the colour said is in play; four more are owed after a wild draw four; after an opening wild the chooser goes on, otherwise the seat beside. |
| Challenges.ChallengeOrigin | internal/game/uno/actions.go:248-272 | Every standing challenge goes back to a silent play down to one card; its deadline is that play's time plus the window, and the hand has not changed since. |
| Challenges.CaughtOnce | internal/game/uno/actions.go:201-227 | Between two penalties for the same player lies another silent play, and each penalty falls within its window. |
| Challenges.ChallengeStep | internal/game/uno/actions.go:184-272 | A command keeps a challenge with its hand or creates it by a silent play; nothing else. |
| Calls.CallMeans | internal/game/uno/actions.go:184-199 | A call is accepted exactly while the caller's own missed call is open; it takes away that challenge and no other. |
| Calls.CatchMeans | internal/game/uno/actions.go:201-227 | A catch is accepted exactly from one seated player against another whose missed call is open, unless the shuffle fails; the one caught draws two or all there are, and turn, colour and all other hands stay. |
| Calls.ExpireMeans | internal/game/uno/actions.go:229-246 | Exactly the challenges whose time is up are dropped and named. |
| Calls.ChallengeIff | internal/game/uno/actions.go:160-272 | A challenge stands after a command exactly if the round goes on and it was just earned, or stood over an unchanged hand and was neither answered, caught nor tidied away. |
| Calls.StandsIff | internal/game/uno/actions.go:184-272 | In every run a challenge stands exactly if there was a silent play down to one card since when nobody has called for it, caught it or found it expired, and the hand is the same. |
| Calls.CalledIsSafe | internal/game/uno/actions.go:184-227 | Between an accepted call and a later penalty for the same player lies another silent play. |
| Failures.RefusedKeepsGame | internal/game/uno/actions.go:10-272 | A refused command leaves the game as it was, but for an expired challenge that a call or catch drops. |
| Failures.RefusedChangesIff | internal/game/uno/actions.go:184-272 | A refused command changes the game if and only if it is a call or catch by seated players that looks up a challenge and finds it expired. |
| Failures.RefusedUnseen | internal/game/uno/view.go:103-109 | No view at that time or later shows whether a refused command was sent. |
| Views.ViewRevealsNothing | internal/game/uno/view.go:51-111 | A view depends on nothing but sizes of what its player may not know. |
| Views.ViewsAgree | internal/game/uno/view.go:51-111 | Any two players see the same apart from hand, playable cards and drawn card. |
| Views.PlayableIff | internal/game/uno/view.go:90-100 | The view lists exactly the cards for which a play is accepted. |
| Sights.AllCardsShown | internal/game/uno/view.go:51-77 | Hands, draw pile and discard pile as shown are together the 108 cards. |
| Sights.ShownDecidesPlay | internal/game/uno/view.go:51-111 | What a player is shown decides which of his plays are accepted. |
| Sights.ShownDecidesTurn | internal/game/uno/view.go:51-111 | Who draws, passes or says a colour with success is the player shown, and the shown counts say how many cards come. |
| Sights.ShownDecidesCall | internal/game/uno/view.go:103-109 | A call or catch is accepted exactly if the missed call is shown at that moment. |
| Sights.ShownNext | internal/game/uno/view.go:73-74 | The next player is beside the one shown, in the direction shown. |
| Sights.PlayShown | internal/game/uno/view.go:51-77 | An accepted play shows as one more on the discard pile with that card on top, and one less with its player. |
| Sights.DrawShown | internal/game/uno/view.go:51-77 | A draw shows as that many more with its player, from the draw pile, or from both piles down to the discard top. |
| Sights.CandidatesShown | internal/game/uno/view.go:82-84 | The winner is the first candidate shown; candidates show no cards. |
| Automation.AutoActDone | internal/room/automation.go:97-135 | In every reachable unfinished game, with a working shuffle and for every random pick, the automatic action for the one who has to act succeeds and leaves neither a colour choice nor a draw decision open. |
| Automation.AutoActMovesOn | internal/room/automation.go:97-135 | With a working shuffle the automatic action always changes the game: no unfinished round is stuck. |
| Endings.EveryRoundCanEnd | internal/game/uno/actions.go:10-158 | No dead end: from every state of a round - dealt and played, or restored from a snapshot that is no dead opening - the players can bring it to its end with plays, draws, passes and colour choices. |
| Endings.PlayOne | internal/game/uno/engine_helpers.go:80-181 | Whoever is on turn with a wild card on top, a card that goes on it and at most one card buried can play it so that the round is over or he is in that position again with fewer cards. |
| Automation.AutoActInv | internal/room/automation.go:97-135 | With any outcome, failed shuffles included, it keeps the invariant. |
| Automation.ActorSeated | internal/room/automation.go:171-192 | The one who has to act is always seated and is the player on turn. |
| Policy.AutoPays | internal/room/automation.go:105-109 | With a penalty owed the server takes the cards and never adds to the chain. |
| Policy.AutoPlays | internal/room/automation.go:101-112 | With a card that goes the server plays one, calls UNO, and says the picked colour for a wild one. |
| Policy.AutoDraws | internal/room/automation.go:113-118 | With none it draws one, and plays that exactly if it goes. |
| Policy.AutoChooses | internal/room/automation.go:98-100 | A colour that is due is said as picked. |
| RoomInvariant.ExecuteInv | internal/room/room.go:197-250 | Every mailbox command keeps the room in order: seats, owner, match fields, and phase in step with the engine. |
| RoomInvariant.RoomFollowsEngine | internal/room/game.go:71-105 | Playing exactly while the engine has an unfinished round, settled exactly once it is finished, waiting exactly without an engine. |
| RoomInvariant.RemoveMemberInv | internal/room/room.go:443-476 | Removing a member keeps ids distinct and the owner a member, or destroys the room. |
| RoomInvariant.HandleMoveInv | internal/room/game.go:24-105 | A game message keeps room and engine together, accepted or refused. |
| RoomInvariant.HandleTurnEventInv | internal/room/automation.go:69-168 | So does an automatic turn, also one that fails half way. |
| RoomInvariant.ActorIsCurrent | internal/room/automation.go:171-192 | In a playing room the member who has to act is always found and sits in the engine's current seat. |
| RoomCommands.NewRoomMeans | internal/room/room.go:148-194 | A new room waits with its owner alone, ready and connected; two to six seats as asked, otherwise four. |
| RoomCommands.JoinReplies | internal/room/room.go:420-440 | Joining succeeds exactly in a waiting room with a free place and for a newcomer; which error otherwise; a refusal changes nothing. |
| RoomCommands.MessageReplies | internal/room/room.go:300-320 | A message is heard exactly from the connection its member is bound to. |
| RoomCommands.ReadyReplies | internal/room/room.go:323-345 | When readiness is accepted and what it becomes; the owner is always ready. |
| RoomCommands.KickReplies | internal/room/room.go:395-417 | Only the owner sends away, only before the round, only somebody else who is there. |
| RoomCommands.StartReplies | internal/room/room.go:348-381 | When a round starts and how: members at the table in their order, the first deals, the match written under the first id at this moment. |
| RoomCommands.MoveReplies | internal/room/game.go:24-68 | Every command of a player reaches the engine as given, and the reply is the engine's. |
| RoomCommands.UnreadableMove | internal/room/game.go:30-60 | What cannot be read is refused before the engine hears of it. |
| RoomCommands.CollectMeans | internal/room/gc.go:49-72 | A collection event ends the room exactly if it is current and nobody is connected. |
| RoomCommands.StopMeans | internal/room/room.go:202-209 | A stop stops both timers and changes nothing else. |
| RoomCommands.DeadlineStep | internal/room/automation.go:13-66 | The turn deadline is left alone, cleared, or set to this moment plus the delay of the turn that begins: short for a managed one, long for a player's own. |
| Seats.SeatStep | internal/room/reconnect.go:9-98 | Every command does to every seat exactly what it means for its player: time-out, return, departure, joining, leaving, or nothing. |
| Seats.ManagedIff | internal/room/automation.go:69-88 | Over every run of one life a member's strikes are his time-outs since he last took his turn, came back or joined, and while he is connected the server plays for him exactly from the limit on. |
| Seats.HandedOver | internal/room/automation.go:76-83 | A connected member's seat is handed over at the moment of exactly the last allowed time-out. |
| RoomPromises.DeafForEver | internal/room/reconnect.go:9-71 | Over every run, crashes included, a connection its seat has stopped listening to stays deaf until it rebinds: its late disconnect changes nothing, its messages are refused. |
| RoomPromises.ReplacedIsDeaf | internal/room/reconnect.go:40-71 | A reconnect makes the seat deaf to every other connection of the player. |
| RoomBinding.OldConnectionIsDeaf | internal/room/reconnect.go:9-71 | Right after a reconnect the new connection is bound and the old one is refused and ignored. |
| RoomPromises.BarredForEver | internal/room/reconnect.go:40-98 | Over every run, with any number of crashes, who is barred in room and store stays barred: every reconnect and every join is refused and changes nothing. |
| RoomPromises.LeavingBars | internal/room/room.go:384-392 | Walking out of a round bars in the room at once, and in the store when the room is written. |
| RoomPromises.CrashBarsIff | internal/room/snapshot.go:216-231 | After a crash a player of the recorded round gets his seat back if and only if the record does not hold it abandoned: a leave whose write failed is forgotten. |
| RoomBinding.AbandonedIsBarred | internal/room/reconnect.go:40-98 | A reconnect right after walking out is refused. |
| RoomBinding.LeavingKeepsOrder | internal/room/room.go:443-476 | Who stays keeps his order; the owner's place goes to the first of them, made ready; the last one out destroys the room. |
| RoomSnapshots.SavedRoomValid | internal/room/snapshot.go:97-136 | A room in order that is neither settled nor destroyed is written in a form both checks accept. |
| RoomSnapshots.SavedRoomRestores | internal/room/snapshot.go:167-246 | It restores to the same room with everybody offline and, in a round, managed. |
| RoomSnapshots.OnlyItsOwnRecord | internal/room/snapshot.go:249-264 | A record is refused under another name, in another version, unnumbered or undated. |
| RoomSnapshots.ActiveIDsAre | internal/room/snapshot.go:139-147 | The index leads to the room exactly the players who may still come back. |
| Saves.SavedIsCurrent | internal/room/snapshot.go:72-136 | After every command the store holds what it held if nothing could be written, nothing if the room is over, and otherwise a record from which the room as it is comes back. |
| Saves.CarriedRevision | internal/room/snapshot.go:72-98 | A record is only ever replaced by one with a higher revision. |
| Saves.RevisionsNeverFall | internal/room/snapshot.go:72-98 | Over every run with any number of crashes the stored revision never falls. |
| Saves.RestoredClock | internal/room/automation.go:34-44 | A restored round has what was left of the turn, but no less than a managed turn's delay. |
| AcceptedRooms.AcceptedRoomIff | internal/room/snapshot.go:167-310 | An accepted record restores to a room in order if and only if it is sound: a match with a real starting time, and an engine neither finished nor at a dead opening - three things the check does not ask. |
| AcceptedRooms.AgreesForEver | internal/room/snapshot.go:249-310 | From a sound record room and engine agree at every moment of every run; around a finished engine they agree at no moment of any run. |
| AcceptedRooms.StuckForEver | internal/room/game.go:24-68 | Over every run a playing room around a finished engine never settles and its engine never changes. |
| AcceptedRooms.StuckStep | internal/room/automation.go:69-76 | No command gets such a room on: moves are refused, turn events find nobody who has to act. |
| AcceptedRooms.FrozenIff | internal/room/automation.go:69-168 | A restored playing room is frozen in every run if and only if the record's engine is finished; otherwise its own timer moves the round on. |
| RoomEndings.RestoredCanSettleIff | internal/room/snapshot.go:167-246 | From an accepted record of a round that nobody has walked out of (at no dead opening), some run settles the restored room if and only if the engine of the record is not finished. |
| RoomEndings.CanSettleIff | internal/room/game.go:24-105 | The same for any such room with an empty mailbox: everybody reconnects and sends his moves. |
| RoomEndings.NeverSettles | internal/room/snapshot.go:294-308 | Around a finished engine no run settles a playing room, whoever has walked out. |
| AcceptedRooms.StuckAgain | internal/room/snapshot.go:97-136 | What a stuck room writes restores, if accepted, to a stuck room around the same engine. |
| AcceptedRooms.DeadOpeningIsLost | internal/room/snapshot.go:167-190 | In a room whose engine is at a dead opening the colour choice is accepted, and what is then written passes the room check but cannot be restored. |
| AcceptedRooms.UndatedIsLost | internal/room/snapshot.go:131-134 | A match with a zero starting time is accepted, but the next record of the restored room is refused. |
| RoomSnapshots.PlayingAroundFinishedExists | internal/room/snapshot.go:249-310 | A playing record around a finished engine exists, is accepted and restores. |
| RoomRestore.ValidateRoomSnapshot | internal/room/snapshot.go:249-310 | The check accepts exactly the valid room snapshots. |
| RoomRestore.ValidateMembers | internal/room/snapshot.go:266-282 | The seen-map loop accepts exactly valid, distinct members with the owner among them. |
| RoomRestore.ValidateIdle | internal/room/snapshot.go:283-292 | Accepts exactly waiting rooms without a match or managed members. |
| RoomRestore.ValidateActive | internal/room/snapshot.go:294-308 | Accepts exactly rooms whose seats are the engine's, in order. |
| RoomRestore.RestoreSavedRoom | internal/room/snapshot.go:167-246 | Builds exactly the specified restored room, its timer armed with the time left. |
| RoomRestore.OpenRoom | internal/room/room.go:148-194 | Builds the new room; an impossible number of seats becomes the default. |
| RoomActors.Room.CurrentActorView | internal/room/automation.go:171-192 | Finds the member who has to act and what he sees. |
| RoomActors.Room.ScheduleTurnTimer | internal/room/automation.go:13-31 | The specified timer change. |
| RoomActors.Room.ArmTurnTimer | internal/room/automation.go:46-56 | The specified timer change. |
| RoomActors.Room.CancelTurnTimer | internal/room/automation.go:59-66 | The specified timer change. |
| RoomActors.Room.HandleAutomatedTurn | internal/room/automation.go:69-94 | The whole room afterwards is the specified one. |
| RoomActors.Room.PerformAutomaticAction | internal/room/automation.go:97-123 | Drives the engine object to exactly the specified outcome. |
| RoomActors.Room.PlayAutomaticCard | internal/room/automation.go:126-135 | Plays a card and picks the colour of a wild one at once. |
| RoomActors.Room.FinishAutomatedAction | internal/room/automation.go:138-168 | Settles a finished round or starts the next turn. |
| RoomActors.Room.ScheduleEmptyRoomTimer | internal/room/gc.go:22-37 | The specified timer change. |
| RoomActors.Room.CancelEmptyRoomTimer | internal/room/gc.go:40-46 | The specified timer change. |
| RoomActors.Room.HandleEmptyRoomTimeout | internal/room/gc.go:49-72 | Destroys the room on a current event with nobody connected, otherwise changes nothing. |
| RoomActors.Room.RemoveMember | internal/room/room.go:443-476 | The specified removal with owner transfer. |
| RoomActors.Room.TryJoin | internal/room/room.go:420-440 | The specified join or its error. |
| RoomActors.Room.HandleDisconnect | internal/room/reconnect.go:9-37 | The specified disconnect. |
| RoomActors.Room.TryReconnect | internal/room/reconnect.go:40-72 | The specified rebinding or its error. |
| RoomActors.Room.AbandonMember | internal/room/reconnect.go:75-98 | The specified departure from a round. |
| RoomActors.Room.HandleReady | internal/room/room.go:323-345 | The specified change or error. |
| RoomActors.Room.HandleStart | internal/room/room.go:348-381 | The specified start of a round, or its error with nothing started. |
| RoomActors.Room.HandleKick | internal/room/room.go:395-417 | The specified removal by the owner, or its error. |
| RoomActors.Room.HandleMessage | internal/room/room.go:300-320 | Only the bound connection of a member is heard. |
| RoomActors.Room.HandleGameCommand | internal/room/game.go:24-68 | The specified room and engine after a game message. |
| RoomActors.Room.FinishGameCommand | internal/room/game.go:71-105 | Strikes cleared, phase following, timer restarted, settlement written. |
| RoomActors.Room.PersistMatchStart | internal/room/persistence.go:13-40 | Hands the store a playing match with this room, these players and this moment, and sets the match fields only after it was written. |
| RoomActors.Room.PersistSettlement | internal/room/persistence.go:43-84 | Builds the rows with fresh ids, has the store check them, and marks the match settled if and only if that and the transaction succeed. |
| RoomPromises.WrittenIff | internal/room/persistence.go:43-84 | A finished round with a match is written if and only if its ids are issued, positive and distinct and the transaction succeeds. |
| RoomPromises.WrittenOnce | internal/room/persistence.go:43-84 | In every run of one life of a room at most one settlement is written. |
| RoomPromises.RoundEndIsSettled | internal/room/game.go:71-105 | Whatever command ends a round, its settlement is written then and there, exactly if its ids are usable and the transaction succeeds. |
| RoomPromises.CrashAfterSettling | internal/room/snapshot.go:72-80 | After a crash the room comes back, and may settle the same match again, if and only if its record could not be deleted on settling. |
| RoomActors.Room.BuildRoomSnapshot | internal/room/snapshot.go:97-136 | The loops build exactly the specified snapshot under the next revision. |
| RoomActors.Room.Handle | internal/room/room.go:197-230 | One mailbox command does exactly what is specified for it. |
| RoomTimers.ExecuteTurn | internal/room/automation.go:13-94 | Every command leaves the turn timer right as it is, or makes all earlier events stale and starts the right one; a turn event that acts always does the latter. |
| RoomTimers.TurnStepKeeps | internal/room/automation.go:46-66 | Either kind of step keeps: no current event but the expected one, and that one on its way. |
| RoomRuns.TurnTimerIsRight | internal/room/automation.go:13-66 | At every moment of a round exactly one turn event is current, and it is in exactly one place: armed, once in the mailbox, or lost to a full or a closing one; it is automatic if and only if the member who has to act is managed or away. |
| RoomRuns.StaleEventsChangeNothing | internal/room/automation.go:69-72 | Events of earlier armings, of either timer, change nothing. |
| RoomCollection.ExecuteEmpty | internal/room/gc.go:22-46 | Every command keeps, cancels or starts the collection timer as connections demand. |
| RoomRuns.CollectedOnlyWhileEmpty | internal/room/gc.go:49-72 | A room is collected only if nobody was connected at any moment since the firing timer was armed. |
| RoomRuns.EmptyRoomsAreWatched | internal/room/gc.go:22-37 | A new room from the start, a restored one from its first snapshot command on: with nobody connected its collection event is in exactly one of those places. |
| RoomRuns.WatchBegins | internal/room/gc.go:22-37 | A room is watched from its first snapshot command on. |
| MailboxRuns.CarriedApart | internal/room/automation.go:46-56 | What a command arms is new: no event is ever armed, queued, dropped or late twice, or in two of these places. |
| RoomRuns.TokenRises | internal/room/gc.go:40-46 | The collection token never falls and a running timer is only given up by moving it on. |
| MailboxRuns.PerformKeeps | internal/room/room.go:197-272 | Every step of submitters, timers and loop keeps queue, room, timers and stored record in order. |
| MailboxRuns.RestartBegins | internal/room/snapshot.go:167-246 | Whatever a run left in the store restores to the room that was saved, in order, with its timer running. |
| RoomRuns.EverySavedRoomRestores | internal/room/snapshot.go:72-136 | From a new room through any commands, timers and crashes: what is stored is accepted, restores, and room and engine agree. |
| Replies.RepliesTell | internal/room/room.go:197-250 | In every run each reply to a job that was carried out is what came of carrying out that very job - for a stop, of the write. |
| Replies.EveryReplyTells | internal/room/room.go:197-250 | So for every reply from the beginning of a life on; who is turned away hears that the room is gone, a stop hears success. |
| Replies.SubmitMeans | internal/room/room.go:252-272 | A job is let in exactly while the room is not closing, the loop has not left and fewer than 64 wait; a stop closes the room behind it. |
| Replies.FireMeans | internal/room/automation.go:53-56 | A timer that fires is armed no longer; its event is queued, dropped by a full mailbox, or too late for a closing one. |
| RoomRuns.RepliesInOrder | internal/room/room.go:197-250 | At every moment the replies are those of the jobs dealt with, in acceptance order, one each. |
| RoomRuns.NothingLeftBehind | internal/room/gc.go:86-103 | Once the loop has left, however it left, the mailbox is empty and refuses, and everybody who waited has had one reply; a stop that was turned away heard success, anybody else that the room is gone. |
| RoomRuns.StopIsLast | internal/room/room.go:252-272 | Nothing is accepted behind a stop. |
| RoomRuns.LoopComesCloser | internal/room/room.go:197-250 | While a job waits the loop can move, and each move brings the job strictly closer. |
| RoomRuns.NobodyIsLeftWaiting | internal/room/room.go:275-297 | After at most a known number of loop moves, whatever else happens in between, a waiting job has its reply. |
| RoomLoops.RoomLoop.Submit | internal/room/room.go:252-272 | Closing, left and full mailboxes refuse; a stop closes the mailbox. |
| RoomLoops.RoomLoop.Fire | internal/room/automation.go:53-56 | A timer hands its event over once, or drops it. |
| RoomLoops.RoomLoop.CarryOut | internal/room/room.go:200-237 | A job is carried out and the room written, a stop the other way round. |
| RoomLoops.RoomLoop.SyncSnapshot | internal/room/snapshot.go:72-94 | Saves the room with the players who may come back, or deletes the record of one that is settled or destroyed with all of its players. |
| RoomLoops.RoomLoop.ActiveSnapshotPlayerIDs | internal/room/snapshot.go:139-147 | The loop lists exactly the members who have not abandoned their seats. |
| RoomLoops.RoomLoop.Advance | internal/room/room.go:197-250 | Each move of the loop - take a job, carry it out, reply, or drain - is exactly the specified one. |
| RoomLoops.RoomLoop.RejectPendingCommands | internal/room/gc.go:86-103 | Drains the mailbox to its end. |
| RoomLoops.DrainedOutAnswersAll | internal/room/gc.go:86-103 | Draining answers every waiting job behind the end, in order, and leaves the mailbox empty. |
| Settlement.BuildRows | internal/room/persistence.go:61-80 | One row per seat with a fresh id each; fails exactly when an id cannot be issued. |
| Settlement.ValidateSettlement | internal/store/mysql/match.go:107-145 | The loop with its two seen maps and the winner counter accepts exactly: one row per seat, distinct ids and players, one winner, nobody else scoring. |
| Settlement.SettlementAccepted | internal/room/persistence.go:43-84 | The settlement of a finished round is accepted if and only if its ids are positive and distinct, and narrowing to eight bits loses nothing. |
| Settlement.SettlementTells | internal/room/persistence.go:43-84 | Each row has the points and the number of the cards in its hand; the winner is out of cards and scores the points of all rows, which with both piles are 1240; nobody else scores. |
| Settlement.CheckedRows | internal/store/mysql/match.go:107-145 | Whatever rows pass: seats in order, nobody and no id twice, exactly one winner, the one the match names, who alone may score. |
| Settlement.StartTells | internal/room/persistence.go:13-40 | A match is written before its first turn as playing, without winner or end, with its room, players and moment. |
| Settlement.GeneratedSettlementAccepted | internal/room/persistence.go:60-80 | With ids of one generator, in any run that is steady, nothing more need be assumed of them. |
| Settlement.ScoreIsTheRest | internal/game/uno/engine_helpers.go:184-220 | Winner's score, draw pile and discard pile are together 1240 points. |
| IdGen.Generator.Next | internal/idgen/idgen.go:60-89 | State and result equal the specified request. |
| IdGen.Generator.WaitNextMillis | internal/idgen/idgen.go:92-106 | The polling loop returns the first reading past the used-up millisecond, or the error met before. |
| IdGen.PackUnpacks | internal/idgen/idgen.go:10-21 | An id is below 2^63 and its three fields can be read off. |
| IdGen.PackBits | internal/idgen/idgen.go:84 | On 64-bit words, joining the shifted fields with "or" is adding them. |
| IdGen.PackInjective | internal/idgen/idgen.go:84 | Equal ids have equal fields. |
| IdGen.IssueMeans | internal/idgen/idgen.go:60-89 | A request out of range or behind is refused and changes nothing; otherwise the id is its millisecond, node and number within it, counting from zero. |
| IdGen.WaitMeans | internal/idgen/idgen.go:92-106 | A wait ends with the first reading that is not the used-up millisecond; an earlier one is an error. |
| IdGen.FreshIDsIncreaseIff | internal/idgen/idgen.go:60-106 | For any clock at all: the ids of a run strictly increase, and none is given out twice, if and only if the run is steady - no request comes back to a millisecond whose wait has failed. |
| IdGen.IDsIncreaseIff | internal/idgen/idgen.go:60-106 | The same from any state a run can leave, together with everything issued before. |
| IdGen.SteadyWithoutFailedWaits | internal/idgen/idgen.go:92-106 | A run in which no wait fails is steady, however the clock falls between requests. |
| IdGen.SteadyUnderRisingClock | internal/idgen/idgen.go:92-106 | A run under a clock that never falls is steady. |
| IdGen.FreshIDsIncrease | internal/idgen/idgen.go:60-106 | So while the clock never falls the ids of a generator strictly increase, over every run, failed requests included. |
| IdGen.IDsIncrease | internal/idgen/idgen.go:60-106 | The same from any state a run can leave, above everything issued before. |
| IdGen.NextWord | internal/idgen/idgen.go:60-89 | An issued id is greater than the state before; the state falls behind exactly when a wait for the next millisecond fails. |
| IdGen.FallingClockRepeatsAnID | internal/idgen/idgen.go:68-79 | A concrete run that is not steady, for every node and millisecond: one step back while waiting makes an id come twice. |
| IdGen.NodesNeverCollide | internal/idgen/idgen.go:84 | Generators with different nodes never issue the same id, whatever their clocks do. |

## Left out

- HTTP, WebSocket pumps, authentication, configuration, logging, metrics and the web client: input and output only.
- SQL, Redis, their scripts and time-outs: a store is the last record saved or deleted, and each operation may fail.
- The room manager and its player-to-room index: the index is written outside the mailbox and is not an invariant of the code.
- Broadcasts other than a player's view, error texts and protocol codes: errors are kept apart only as far as callers can.
- JSON: a payload is parsed or does not parse; the encoding of snapshots is taken as faithful.
- `PlayableCards`: the view lists the same cards, and its list is proved right.
- A nil list or map and an empty one are the same here.
- Members, hands, piles and candidates are sequences held by their object, not pointers and slices; the in-place slice
  algorithms are proved on arrays in `Slices`, but sharing of a backing array between two slices is not modelled.
- Tokens, revisions and the millisecond count are unbounded; their wrap-around at 64 bits is not modelled.
- That a shuffle's picks are uniform: `Shuffling.EveryOrderOnce` and `EveryOrderReachable` reduce it to the random source.
- Lower-casing of a colour name: a message carries a colour or an unknown one.
- RoomEndings.RestoredCanSettleIff: does not cover records of rooms somebody has walked out of, because the server alone
  plays such a seat and has to play whatever it can; for those `AcceptedRooms.FrozenIff` says that the round is moved on.
- That every game ends: shuffles and draws can prolong it for ever. What is proved is that it always can be ended
  (`Endings.EveryRoundCanEnd`).
- A bound of 32 on what is owed in all states: a catch in the middle of a chain can recycle the chain's own cards, so the
  bound is proved for chains that were not recycled.
- Penalties.PenaltyIsChainSum: the exact sum is stated until a catch recycles the pile under the chain; evenness and the
  penalty card on top hold always.
- The three-second wait of a synchronous caller: a caller who gives up early does not change what the loop replies.
