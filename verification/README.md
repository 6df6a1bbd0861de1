# Duelcraft, verified

A Dafny model of the parts of Duelcraft, a Minecraft mod that plays trading card duels over the ygopro-core
engine, in which a mistake would be hardest to see: the client's picture of the board, the preparation of a duel
between two players, the ownership and run of duels on the server, the hidden information each seat receives, the
client's collection protocol, and a handful of small algorithms. Objects the program updates in place are classes
here with the same fields; each of their methods is proved to compute a function of the old state, and what the
program promises is proved about those functions over all inputs and all runs.

`dafny verify dfyconfig.toml` checks the whole project.

## How it is laid out

- **The client's board.** `DuelBoard.dfy` gives the meaning of every board message on values; `ClientDuelState.dfy`
  is the mutable object graph, whose methods are proved to compute it. The other `DuelBoard*.dfy` files prove what
  messages keep and do: placing and links (`Invariants`, `Moves`, `Piles`, `Links`), exact rearrangements (`GraveDeck`,
  `Rows`, `Swap`, `Removal`), conservation (`Held`, `Conservation`, `Losses`), whole runs (`Runs`), and inputs on which
  things go wrong (`Examples`); `Writes` says which codes, positions and links a message is to write, `Written` that it
  writes exactly those, and `Arrivals` where the cards it moves come to stand.
- **Preparation.** `Preparation.dfy` is the protocol as a machine of atomic updates, `PreparationProofs.dfy` and
  `PreparationStarts.dfy` its theorems over all histories, and `PreparationViews.dfy` what a player is shown of them. `DuelPreparationService.dfy` is the service with its flow
  objects; from inside every callback the host may call the service again, nested to any depth, and `Valid` ties the
  objects to a history at every such point. `PreparationWire.dfy` is the packet format.
- **Duels on the server.** `DuelMessages.dfy` and `MessageSanitizer.dfy` (what a seat may know, said as a relation,
  and the copies that respect it), `ServerDuelHandler.dfy`, `SoloDuelHandler.dfy`, `DuelSession.dfy` (the run loop
  over an arbitrary engine) and `DuelManager.dfy` (ownership, exclusion, one end for every duel).
- **The collection.** `ClientCollectionState.dfy` assembles paged snapshots; `CollectionClient.dfy` is the protocol
  over connections, timeouts and superseded refreshes, with a log of everything acknowledged and shown.
- **Small cores.** `SortSelection.dfy`, `SeedExpander.dfy`, `DeclarableFilter.dfy` and `DeclarableWords.dfy`, `DeckListYdk.dfy`; `Basics.dfy`,
  `JavaText.dfy` and `Wrappers.dfy` are shared helpers.

## Assumptions

- Clocks, random ids and the answers of the host, the engine, the transport and the executor are arbitrary: method
  parameters, nondeterministic choices, or the list of what an engine will still do. Fresh ids are ids not drawn before.
- Board messages index rows and piles that exist; where the program would throw on an index, the message is not
  `Legal`. For whole runs a Swap names no pile card twice and strands no material (exactly what `SwapExact` shows it
  needs), and a ShuffleSetCard sends no card that it moves to another row or side (exactly what
  `ShuffleSetCardInOrder` shows it needs).
- In preparation, the host's names are at most 128 characters, `host.selection` looks at views only before an answer
  that will not do, and `clear` is not called from inside a callback.
- The code that waits on a collection future makes requests and refreshes from its completion; it does not complete
  futures itself, and connections change only between steps.

## What turned out false

Each of these has a small well-formed board and a legal message in `DuelBoardExamples.dfy`.

- Swap does not keep the board in order on every input. Naming one pile card at both ends, by the same address or by two,
  inserts it twice. Naming a material as the second card, when the first is its host or stands before its host in a pile,
  leaves the material listed where it was and put elsewhere as well. `DuelBoardSwap.SwapExact` says that these are the
  only ways.
- Swap does not keep every card on the board. A card sent to an overlay end, or to any place that is no slot and no pile,
  is put down nowhere; `DuelBoardLosses.SwapConserves` says exactly when.
- Swap does not exchange two cards of one pile on every input: the first card is put in at the index the second had before
  either was taken out, so naming an earlier card first leaves it one place too far down, unless the second is the last.
  `DuelBoardArrivals.SwapInPile` says that these are the only inputs, and `SwapOfNeighbours` shows one.
- A Move does not keep every card on the board. It loses the occupant of the slot it moves to, and it loses the card itself
  if the destination is an overlay whose host is not found once the card is lifted, or a location that names no container.
  `MoveConserves` says that these are the only ways.
- RemoveCards does not remove every card it names: a material stays under its host if an earlier entry removed the host or
  moved up its pile. `RemoveCardsExact` says exactly which cards fall.
- ShuffleSetCard breaks the board at the first exchange that sends a card to the other side, or that takes a card out of a
  pile. `DuelBoardRows.ShuffleSetCardInOrder` says, from the board and the message beforehand, that the board is in order
  after every exchange if and only if no entry does so; entries that move nothing may say anything. The condition is about
  every exchange: a message can break the board and end with it in order again, as `ShuffleAcrossEndsInOrder` shows.

## Model

| member | source | states |
|---|---|---|
| `ClientDuel.ClientDuelState.ApplyMessage` | src/main/java/com/haxerus/duelcraft/client/ClientDuelState.java:394-593 | Whatever message arrives, the objects, arrays, lists and link sets end up as the board `DuelBoard.Apply` makes of the board before; the object invariant holds again. |
| `ClientDuel.ClientDuelState.ApplyMove` | src/main/java/com/haxerus/duelcraft/client/ClientDuelState.java:1157-1217 | The in-place move (new card, departure, shift, overlay at either end) is `DuelBoard.ApplyMove` on the abstract board. |
| `ClientDuel.ClientDuelState.PutAt` | src/main/java/com/haxerus/duelcraft/client/ClientDuelState.java:1075-1101 | Writing a slot, or inserting into a pile at the clamped index or its tail and renumbering, is `DuelBoard.PutAt`. |
| `ClientDuel.ClientDuelState.RemoveFrom` | src/main/java/com/haxerus/duelcraft/client/ClientDuelState.java:1104-1120 | Removal from a slot, a pile or a material list with renumbering is `DuelBoard.RemoveFrom`; what is not found changes nothing. |
| `ClientDuel.ClientDuelState.AttachMaterial` | src/main/java/com/haxerus/duelcraft/client/ClientDuelState.java:1219-1231 | Attaching to a host, or to none, is `DuelBoard.Attach`. |
| `ClientDuel.ClientDuelState.DetachMaterial` | src/main/java/com/haxerus/duelcraft/client/ClientDuelState.java:1233-1237 | Detaching with renumbering is `DuelBoard.Detach`. |
| `ClientDuel.ClientDuelState.ClearTargets` | src/main/java/com/haxerus/duelcraft/client/ClientDuelState.java:1345-1350 | Both ends of every target link of the card are dropped, self-links included. |
| `ClientDuel.ClientDuelState.DetachEquips` | src/main/java/com/haxerus/duelcraft/client/ClientDuelState.java:1359-1364 | Both ends of every equip link of the card are dropped. |
| `ClientDuel.ClientDuelState.SwapCards` | src/main/java/com/haxerus/duelcraft/client/ClientDuelState.java:1333-1343 | Two removals and two insertions in the program's order are `DuelBoard.ApplySwap`. |
| `ClientDuel.ClientDuelState.ApplySwapGraveDeck` | src/main/java/com/haxerus/duelcraft/client/ClientDuelState.java:1245-1281 | The list exchange and the iterator loop with its index counting are `DuelBoard.ApplySwapGraveDeck`. |
| `ClientDuel.ClientDuelState.ApplyShuffleSetCard` | src/main/java/com/haxerus/duelcraft/client/ClientDuelState.java:1287-1315 | The chain of exchanges in the row array is `DuelBoard.ApplyShuffleSetCard`. |
| `ClientDuel.ClientDuelState.ApplyRemoveCards` | src/main/java/com/haxerus/duelcraft/client/ClientDuelState.java:1318-1331 | All cards are looked up first, then unlinked and removed one by one, as `DuelBoard.ApplyRemoveCards` says. |
| `ClientDuel.ClientDuelState.Draw` | src/main/java/com/haxerus/duelcraft/client/ClientDuelState.java:394-408 | Each drawn card takes the deck's last card or a new one to the hand's end, with codes and numbering as in `DuelBoard.ApplyDraw`. |
| `ClientDuel.ClientDuelState.ApplyEquip` | src/main/java/com/haxerus/duelcraft/client/ClientDuelState.java:745-754 | An equip message leaves exactly one target at the equipped end. |
| `ClientDuel.ClientDuelState.ApplyTarget` | src/main/java/com/haxerus/duelcraft/client/ClientDuelState.java:755-772 | CardTarget and CancelTarget add or drop both ends of the link. |
| `ClientDuel.ClientDuelState.Open` | src/main/java/com/haxerus/duelcraft/client/ClientDuelState.java:333-360 | The opening board: two decks and two extra decks of numbered blank cards. |
| `DuelBoardInvariants.SingleContainment` | src/main/java/com/haxerus/duelcraft/client/ClientDuelState.java:1056-1120 | In a placed board a card is in at most one slot, pile index or material index. |
| `DuelBoardInvariants.BackPointersAgree` | src/main/java/com/haxerus/duelcraft/client/ClientDuelState.java:142-163 | In a placed board a card in a slot or pile is found under the controller, location and sequence it carries. |
| `DuelBoardMoves.MoveWellFormed` | src/main/java/com/haxerus/duelcraft/client/ClientDuelState.java:1157-1217 | Every move, known card or new, overlay or not at either end, keeps single containment, back-pointers, numbering and two-ended links. |
| `DuelBoardMoves.LeaveWellFormed` | src/main/java/com/haxerus/duelcraft/client/ClientDuelState.java:1171-1181 | A move to location 0 takes the card out of play: no link of any card mentions it, and the board stays in order. |
| `DuelBoardConservation.MoveConserves` | src/main/java/com/haxerus/duelcraft/client/ClientDuelState.java:1157-1240 | A move of a known card leaves every other card and every list's order as they were, the occupant of the slot moved to aside; it loses no card if and only if the destination still exists once the card is lifted (a slot, a pile, or a host that is found) and no other card stands in it. |
| `DuelBoardArrivals.MoveLands` | src/main/java/com/haxerus/duelcraft/client/ClientDuelState.java:1157-1231 | Whatever a Move to a location other than 0 names, the card it moves stands in the slot, at the index of the pile or at the material index named, with the controller, location and sequence of that place; without room, an overlay without host or a place that is no container, it stands nowhere; every other card keeps its place in its list, its slot or its host. |
| `DuelBoardArrivals.SetStands` | src/main/java/com/haxerus/duelcraft/client/ClientDuelState.java:431-447 | A Set of an unknown card puts a new one at the place named and moves no other; a Set of a known card moves nothing. |
| `DuelBoardWritten.ApplyWrites` | src/main/java/com/haxerus/duelcraft/client/ClientDuelState.java:394-593 | Every message writes exactly the codes, positions and links it is to write, said of the board before it: a moved card takes the position named unless it goes under a host, and the code by the two rules for known cards; drawn, shuffled and updated cards take the codes listed; a target link is added by CardTarget and dropped by CancelTarget; the links of a card are dropped exactly where it leaves its place, and no other card changes. |
| `DuelBoardSwap.SwapExact` | src/main/java/com/haxerus/duelcraft/client/ClientDuelState.java:1333-1343 | Swap keeps the board in order if and only if it does not name one pile card at both ends, and does not name a material whose host is the first card or stands behind it in its pile. |
| `DuelBoardArrivals.SwapLands` | src/main/java/com/haxerus/duelcraft/client/ClientDuelState.java:1333-1343 | Two cards found, the second stands where the first was named and the first where the second was, moved up by one if the second came in before it in the same pile; nothing else moves. |
| `DuelBoardArrivals.SwapInPile` | src/main/java/com/haxerus/duelcraft/client/ClientDuelState.java:1333-1343 | Within one pile a Swap exchanges the two cards and leaves the rest if and only if it names the later one first or the last one second. |
| `DuelBoardLosses.SwapConserves` | src/main/java/com/haxerus/duelcraft/client/ClientDuelState.java:1333-1343 | Whatever a Swap names, no card but the two moves, and it loses exactly those sent to a place that is no slot and no pile: none if and only if both ends are slots or piles for the cards found. |
| `DuelBoardRemoval.RemoveLoopDeparts` | src/main/java/com/haxerus/duelcraft/client/ClientDuelState.java:1318-1331 | After any number of removals every named card is in no slot or pile and at neither end of any link, nothing was added anywhere, and the board is in order. |
| `DuelBoardRemoval.RemoveCardsExact` | src/main/java/com/haxerus/duelcraft/client/ClientDuelState.java:1318-1331 | RemoveCards takes exactly the fallen cards out of every slot and list, keeping order: every named slot or pile card, and every named material whose host was still found at its address. |
| `DuelBoardGraveDeck.SwapGraveDeckExact` | src/main/java/com/haxerus/duelcraft/client/ClientDuelState.java:1245-1281 | The grave is the old deck; the deck is the unflagged old grave; the extra deck gains the flagged ones at its end; everything else is as before and the board stays in order. |
| `DuelBoardGraveDeck.SelectKeepsOrder` | src/main/java/com/haxerus/duelcraft/client/ClientDuelState.java:1245-1281 | Selecting by mask keeps exactly the positions with that bit, all of them, in their order. |
| `DuelBoardRows.ShuffleSetCardInOrder` | src/main/java/com/haxerus/duelcraft/client/ClientDuelState.java:1287-1315 | The board is in order after every exchange of the message if and only if each card that moves was found in the row, on the side it is sent to. |
| `DuelBoardRows.ShuffleSetCardExact` | src/main/java/com/haxerus/duelcraft/client/ClientDuelState.java:1287-1315 | Where order holds throughout, only the row changes and each side's row holds the same cards afterwards; if no card or target is named twice, every card that moves stands at its target. |
| `DuelBoardRows.ReseatExchanges` | src/main/java/com/haxerus/duelcraft/client/ClientDuelState.java:1301-1314 | One step writes two slots and no other, crossing or not: the card takes its target, and what stood there takes the slot of the card's own number on that side. |
| `DuelBoardRows.ReseatExact` | src/main/java/com/haxerus/duelcraft/client/ClientDuelState.java:1297-1314 | One step keeps the board in order if and only if it does nothing or the card stands in the row on the side it is sent to. |
| `DuelBoardPiles.DrawWellFormed` | src/main/java/com/haxerus/duelcraft/client/ClientDuelState.java:394-408 | Drawing any number of cards, from a deck too short included, keeps the board in order. |
| `DuelBoardPiles.DrawExact` | src/main/java/com/haxerus/duelcraft/client/ClientDuelState.java:394-408 | Draw moves the deck's last cards, then new ones, to the hand's end in order, and changes no other list and no slot. |
| `DuelBoardPiles.ResizeWellFormed` | src/main/java/com/haxerus/duelcraft/client/ClientDuelState.java:521-536 | Growing or shrinking a pile to the size of a query keeps the board in order. |
| `DuelBoardRuns.ApplyWellFormed` | src/main/java/com/haxerus/duelcraft/client/ClientDuelState.java:394-772 | Each of the modelled messages keeps the board in order. |
| `DuelBoardLosses.ApplyConserves` | src/main/java/com/haxerus/duelcraft/client/ClientDuelState.java:394-593 | After each message the cards on the board are those before, less the ones `Lost` names beforehand, and the new ones that found a place; every card the message does not touch is where it was. |
| `DuelBoardLosses.LostWasHeld` | src/main/java/com/haxerus/duelcraft/client/ClientDuelState.java:394-593 | Only cards that were on the board are lost, and only new ones land. |
| `DuelBoardRuns.RunKeepsCardsSingle` | src/main/java/com/haxerus/duelcraft/client/ClientDuelState.java:142-163 | After any run of messages a card is in at most one place, and if it is in a slot or pile `cardAt` finds it under its own fields. |
| `DuelBoardRuns.RunKeepsLinksTwoEnded` | src/main/java/com/haxerus/duelcraft/client/ClientDuelState.java:745-772 | After any run, targets and targetedBy are converses, and so are equipTarget and equippedBy, dropped cards included. |
| `DuelBoardRuns.RunConserves` | src/main/java/com/haxerus/duelcraft/client/ClientDuelState.java:394-772 | After any run the cards on the board are those at its start and those that landed, less those some message lost. |
| `DuelBoardRuns.RunLosesOnlyNamed` | src/main/java/com/haxerus/duelcraft/client/ClientDuelState.java:394-772 | A card leaves the board if and only if some message of the run loses it. |
| `DuelBoardExamples.SwapOfOneHandCard` | src/main/java/com/haxerus/duelcraft/client/ClientDuelState.java:1333-1343 | A legal Swap that names one hand card at both ends breaks a well-formed board. |
| `DuelBoardExamples.SwapOfHostAndMaterial` | src/main/java/com/haxerus/duelcraft/client/ClientDuelState.java:1333-1343 | A legal Swap of a host and its own material breaks a well-formed board. |
| `DuelBoardExamples.SwapBeforeHost` | src/main/java/com/haxerus/duelcraft/client/ClientDuelState.java:1333-1343 | A legal Swap of a card before a host in the hand and the host's material breaks a well-formed board. |
| `DuelBoardExamples.SwapOfNeighbours` | src/main/java/com/haxerus/duelcraft/client/ClientDuelState.java:1333-1343 | A legal Swap of the first two of three hand cards does not exchange them. |
| `DuelBoardExamples.SwapWithMaterial` | src/main/java/com/haxerus/duelcraft/client/ClientDuelState.java:1333-1343 | A legal Swap with another card's material keeps the board in order and loses the first card. |
| `DuelBoardExamples.MoveOntoCard` | src/main/java/com/haxerus/duelcraft/client/ClientDuelState.java:1157-1217 | A legal Move onto an occupied slot loses its occupant. |
| `DuelBoardExamples.MoveNowhere` | src/main/java/com/haxerus/duelcraft/client/ClientDuelState.java:1157-1231 | A legal Move to an overlay without a host, or to a location that names no container, loses the card. |
| `DuelBoardExamples.RemoveHostFirst` | src/main/java/com/haxerus/duelcraft/client/ClientDuelState.java:1318-1331 | RemoveCards that names a host before its material leaves the material under the departed host. |
| `DuelBoardExamples.ShuffleAcross` | src/main/java/com/haxerus/duelcraft/client/ClientDuelState.java:1287-1315 | A legal ShuffleSetCard that re-places a card on the other side breaks a well-formed board. |
| `DuelBoardExamples.ShuffleAcrossEndsInOrder` | src/main/java/com/haxerus/duelcraft/client/ClientDuelState.java:1287-1315 | A legal ShuffleSetCard that crosses sides breaks a well-formed board at its first exchange and leaves it in order at its last. |
| `DuelBoardRuns.OpeningWellFormed` | src/main/java/com/haxerus/duelcraft/client/ClientDuelState.java:333-360 | The opening board is in order. |
| `PreparationServer.DuelPreparationService.Invite` | src/main/java/com/haxerus/duelcraft/server/DuelPreparationService.java:90-109 | Once expired flows are gone the answer is the one the checks in their order give; on OK one flow for both players follows in the history. |
| `PreparationServer.DuelPreparationService.Accept` | src/main/java/com/haxerus/duelcraft/server/DuelPreparationService.java:111-125 | Stale, unavailable and ineligible answers in order; on OK the flow is prepared with both selections and a fresh round. |
| `PreparationServer.DuelPreparationService.Decline` | src/main/java/com/haxerus/duelcraft/server/DuelPreparationService.java:127-131 | Only the invited player closes an invitation this way. |
| `PreparationServer.DuelPreparationService.Cancel` | src/main/java/com/haxerus/duelcraft/server/DuelPreparationService.java:133-138 | Either participant closes a flow that is not starting; a starting one answers BUSY and stays. |
| `PreparationServer.DuelPreparationService.Throw` | src/main/java/com/haxerus/duelcraft/server/DuelPreparationService.java:140-162 | The hand counts only in the current round and once per player; a second hand decides the round by paper, scissors and rock or opens a new one. |
| `PreparationServer.DuelPreparationService.First` | src/main/java/com/haxerus/duelcraft/server/DuelPreparationService.java:164-180 | The winner's choice is recorded, the host asked once with the seat chosen, and the flow closed with OFFLINE, OK or START_FAILED, whatever the host did meanwhile. |
| `PreparationServer.DuelPreparationService.Expire` | src/main/java/com/haxerus/duelcraft/server/DuelPreparationService.java:182-188 | Without re-entry exactly the flows that are due and not starting are closed; with any re-entry the service stays lawful. |
| `PreparationServer.DuelPreparationService.Logout` | src/main/java/com/haxerus/duelcraft/server/DuelPreparationService.java:190-196 | A starting flow is only marked; any other is closed with OFFLINE. |
| `PreparationServer.DuelPreparationService.DuelEnded` | src/main/java/com/haxerus/duelcraft/server/DuelPreparationService.java:199-202 | One revision advances and nothing else changes before the host is told. |
| `PreparationServer.DuelPreparationService.View` | src/main/java/com/haxerus/duelcraft/server/DuelPreparationService.java:220-234 | The view is the one the state after expiry gives, and every check of its constructor holds if the host's names fit. |
| `PreparationServer.DuelPreparationService.Finish` | src/main/java/com/haxerus/duelcraft/server/DuelPreparationService.java:259-264 | A stored flow disappears for both participants, both revisions advance, and every other starting flow is kept. |
| `PreparationServer.DuelPreparationService.Changed` | src/main/java/com/haxerus/duelcraft/server/DuelPreparationService.java:266-271 | An update is complete, and the state one the history explains, before the host gets control. |
| `PreparationServer.DuelPreparationService.Reenter` | src/main/java/com/haxerus/duelcraft/server/DuelPreparationService.java:266-271 | Any calls the host makes from a callback, nested as deep as it likes, keep the service lawful and every starting flow in place. |
| `PreparationServer.DuelPreparationService.OnwardRevisions` | src/main/java/com/haxerus/duelcraft/server/DuelPreparationService.java:273-275 | Over any stretch of execution a player's revision never decreases, and if it is the same the flow shown is the same. |
| `Preparation.ResolveIsFair` | src/main/java/com/haxerus/duelcraft/duel/FirstTurnLobby.java:29-38 | Paper beats rock, scissors beat paper and rock beats scissors: the first hand wins exactly in these three cases, the second exactly in their converses, and equal hands tie. |
| `PreparationProofs.NextInv` | src/main/java/com/haxerus/duelcraft/server/DuelPreparationService.java:90-188 | Every update keeps pairing, one flow per player and the fields each mode demands. |
| `PreparationProofs.ReplayInv` | src/main/java/com/haxerus/duelcraft/server/DuelPreparationService.java:50-78 | In every reachable state both participants map to the same flow, `prepared` is set from RPS on and the round id exactly in RPS. |
| `PreparationProofs.ViewNeverThrows` | src/main/java/com/haxerus/duelcraft/duel/PreparationView.java:14-29 | In every reachable state, at any time, the view of any player passes all the constructor's checks. |
| `PreparationViews.ViewTells` | src/main/java/com/haxerus/duelcraft/server/DuelPreparationService.java:220-234 | Every field of the view of a player in a flow, from the history: the invitation it belongs to, the direction, the opponent, the phase, the round, whose hand is which, who chooses, and the time left of the sixty seconds since the last step. |
| `PreparationProofs.RevisionsIdentifyState` | src/main/java/com/haxerus/duelcraft/server/DuelPreparationService.java:220-276 | Between two points of a history a revision never decreases, and equal revisions show the same flow. |
| `PreparationStarts.StartIsEarned` | src/main/java/com/haxerus/duelcraft/server/DuelPreparationService.java:111-180 | A start comes only after an acceptance with two eligible selections, two hands of one round of which the winner's beats the other as paper, scissors and rock do, and the winner's own choice of the seat asked for. |
| `PreparationStarts.StartsAtMostOnce` | src/main/java/com/haxerus/duelcraft/server/DuelPreparationService.java:164-180 | Over any history a flow is started at most once. |
| `PreparationStarts.StartingIsKept` | src/main/java/com/haxerus/duelcraft/server/DuelPreparationService.java:190-196 | No update but its own launch and the close after it touches a starting flow, except to note a logout. |
| `DuelManagers.DuelManager.First` | src/main/java/com/haxerus/duelcraft/server/DuelManager.java:207-224 | On OK the duel stands, waiting or over and on record, with the flow's two players in its seats: the one who chose sits first exactly if he chose to go first. Otherwise the four maps are as they were. |
| `DuelManagers.DuelManager.StartSolo` | src/main/java/com/haxerus/duelcraft/server/DuelManager.java:228-250 | A solo start needs a player in no duel and no accepted flow and withdraws the invitation first; on success the duel stands with its owner first and nobody second, on failure the maps are as they were. |
| `DuelManagers.DuelManager.Start` | src/main/java/com/haxerus/duelcraft/server/DuelManager.java:252-286 | A duel is installed, announced, set up and run until it first waits or ends; it then stands with the seats given, and a failure takes it out of every map. |
| `DuelManagers.DuelManager.Invite` | src/main/java/com/haxerus/duelcraft/server/DuelManager.java:67-74 | Invalid settings and an invitation to oneself are refused, and the host's answers keep anybody who duels or starts to from being put into a flow. |
| `DuelManagers.DuelManager.HandleResponse` | src/main/java/com/haxerus/duelcraft/server/DuelManager.java:287-292 | An accepted response runs the session on from where the player's answer leaves it, to where it waits or ends; any other changes nothing, and no other duel is touched. |
| `DuelManagers.DuelManager.ProcessSoloAutoResponse` | src/main/java/com/haxerus/duelcraft/server/DuelManager.java:293-301 | The opponent's answers are given between runs of the engine, never inside one, until none is left or the engine fails. |
| `DuelManagers.DuelManager.Process` | src/main/java/com/haxerus/duelcraft/duel/DuelSession.java:92-147 | A session that is not running runs; it stays live, or is completed once and leaves the maps. |
| `DuelManagers.DuelManager.FinishDuel` | src/main/java/com/haxerus/duelcraft/server/DuelManager.java:318-322 | One result goes to every human seat of a duel that is on, and to nobody of any other. |
| `DuelManagers.DuelManager.EndDuel` | src/main/java/com/haxerus/duelcraft/server/DuelManager.java:323-332 | The duel leaves all four maps, its players are free, and it is on record as closed. |
| `DuelManagers.DuelManager.Leave` | src/main/java/com/haxerus/duelcraft/server/DuelManager.java:307-317 | Whoever gives up or disconnects loses the duel they are in to the other seat. |
| `DuelManagers.DuelManager.Shutdown` | src/main/java/com/haxerus/duelcraft/server/DuelManager.java:123-131 | Every duel is cut off, every map is empty, every flow is closed and no revision is kept. |
| `DuelManagers.LoopOnLive` | src/main/java/com/haxerus/duelcraft/duel/DuelSession.java:101-147 | One call of `process` leaves a live duel live or brings it to its end with at most one result told to each human. |
| `DuelManagers.ResultTold` | src/main/java/com/haxerus/duelcraft/server/DuelManager.java:318-322 | Finishing a duel tells every human seat exactly one result. |
| `CollectionSnapshots.ClientCollectionState.Begin` | src/main/java/com/haxerus/duelcraft/client/collection/ClientCollectionState.java:28-36 | A header is taken exactly if its fields are valid and it is not older than the view; a refused one changes nothing. |
| `CollectionSnapshots.ClientCollectionState.Accept` | src/main/java/com/haxerus/duelcraft/client/collection/ClientCollectionState.java:49-85 | The expected page is taken exactly if it is of the snapshot, revision, index and size expected and adds nothing twice; a refused one changes nothing; the last one publishes. |
| `CollectionSnapshots.ClientCollectionState.PublishIfComplete` | src/main/java/com/haxerus/duelcraft/client/collection/ClientCollectionState.java:96-101 | A view is published only when no page is missing, and is never older than the one before. |
| `CollectionSnapshots.WholeSizes` | src/main/java/com/haxerus/duelcraft/client/collection/ClientCollectionState.java:92-94 | A view of k count pages holds more than 256(k-1) and at most 256k codes; likewise 32 summaries a deck page. |
| `CollectionSnapshots.WholeKeepsEveryEntry` | src/main/java/com/haxerus/duelcraft/client/collection/ClientCollectionState.java:62-63 | Every entry of every page is in the published view with its value. |
| `CollectionSnapshots.UnionSize` | src/main/java/com/haxerus/duelcraft/client/collection/ClientCollectionState.java:92-94 | Pages before the last are full, so a partial snapshot's size tells how many pages it has. |
| `CollectionClients.CollectionClient.Run` | src/main/java/com/haxerus/duelcraft/client/collection/CollectionClient.java:63-235 | Over any run of requests, refreshes, replies, timeouts, connections and kept tasks, re-entered from any completion, the invariant below holds and a refresh under way always has a request out. |
| `CollectionClients.CollectionClient.ReplyNow` | src/main/java/com/haxerus/duelcraft/client/collection/CollectionClient.java:118-145 | A reply of an earlier connection or to no request changes nothing at all; any other is matched, taken off, noted and its revision acknowledged first. |
| `CollectionClients.CollectionClient.TimeoutNow` | src/main/java/com/haxerus/duelcraft/client/collection/CollectionClient.java:103-108 | A timeout fails only a request of this connection that is still out. |
| `CollectionClients.CollectionClient.RefreshNow` | src/main/java/com/haxerus/duelcraft/client/collection/CollectionClient.java:183-214 | A refresh fails without the connection, joins the current one exactly while that one pulls what was acknowledged, and otherwise supersedes it: the one before is noted and settled with all who joined it. |
| `CollectionClients.CollectionClient.OpenReply` | src/main/java/com/haxerus/duelcraft/client/collection/CollectionClient.java:200-211 | Anything but a snapshot's header, an outdated one, or one the state refuses settles the refresh with a failure. Any other does not settle it while pages are missing: unless the transport throws, the request for exactly the next missing page is out. |
| `CollectionClients.CollectionClient.PageReply` | src/main/java/com/haxerus/duelcraft/client/collection/CollectionClient.java:216-228 | A page after a newer acknowledgement, or one the state refuses, settles the refresh with a failure. Any other is added to those received, and while pages are missing the request for exactly the next one is out unless the transport throws. |
| `CollectionClients.CollectionClient.PullThrough` | src/main/java/com/haxerus/duelcraft/client/collection/CollectionClient.java:196-240 | Over a run: a refresh that is answered with its header and then each page in turn, whatever else the client asks for meanwhile, is settled with the view of exactly those pages, and so is everyone who waited for it, unless the transport throws. |
| `CollectionClients.CollectionClient.RefreshThrough` | src/main/java/com/haxerus/duelcraft/client/collection/CollectionClient.java:183-240 | The same from the call of `refresh` on. |
| `CollectionClients.CollectionClient.FinishRefresh` | src/main/java/com/haxerus/duelcraft/client/collection/CollectionClient.java:230-240 | The refresh and everyone who joined it are settled with the view shown, which is no older than anything acknowledged, or all with a failure. |
| `CollectionClients.CollectionClient.Deliver` | src/main/java/com/haxerus/duelcraft/client/collection/CollectionClient.java:131-143 | The answer for a refresh that was superseded changes nothing the client shows. |
| `CollectionClients.CollectionClient.Reset` | src/main/java/com/haxerus/duelcraft/client/collection/CollectionClient.java:69-84 | A closed connection leaves no request, no refresh and no required revision. |
| `CollectionClients.LogPublished` | src/main/java/com/haxerus/duelcraft/client/collection/CollectionClient.java:183-228 | Publishing keeps read-your-writes, order of views, and silence of superseded refreshes over the whole log, and the view shown is one published on this connection. |
| `CollectionClients.LogRefreshed` | src/main/java/com/haxerus/duelcraft/client/collection/CollectionClient.java:230-240 | Settling a refresh keeps read-your-writes over the whole log, each refresh settled once and none without its note. |
| `CollectionClients.LogReset` | src/main/java/com/haxerus/duelcraft/client/collection/CollectionClient.java:69-84 | A new connection owes nothing to the acknowledgements of earlier ones. |
| `CollectionClients.CollectionClient.TakenOff` | src/main/java/com/haxerus/duelcraft/client/collection/CollectionClient.java:122-124 | Taking one request off leaves the current refresh driven by another, or by the one just answered. |
| `MessageSanitizer.ForRecipientExact` | src/main/java/com/haxerus/duelcraft/duel/MessageSanitizer.java:70-177 | Two messages give a seat the same copy if and only if they are alike in all that seat may know. |
| `MessageSanitizer.ForRecipientIdempotent` | src/main/java/com/haxerus/duelcraft/duel/MessageSanitizer.java:70-140 | Sanitizing a sanitized message changes nothing. |
| `MessageSanitizer.HideCardExact` | src/main/java/com/haxerus/duelcraft/duel/MessageSanitizer.java:156-177 | Two query results are stripped to the same exactly if place, links and public flags agree and, where openly known, everything does. |
| `MessageSanitizer.RecipientsExact` | src/main/java/com/haxerus/duelcraft/duel/MessageSanitizer.java:48-68 | Who receives a message: hints 1, 2, 3 and 5 and the confirmation of a deck or extra deck card only the player named, hints 4, 6, 7, 8, 9 and 11 only the other, a missed effect only the controller named, and anything else both. |
| `ServerDuelHandlers.ServerDuelHandler.OnMessage` | src/main/java/com/haxerus/duelcraft/server/ServerDuelHandler.java:34-76 | The handler's state and what it sends are those of `Handle`. |
| `ServerDuelHandlers.SeatSeesOnlyItsOwn` | src/main/java/com/haxerus/duelcraft/server/ServerDuelHandler.java:34-96 | Runs of the handler that differ only in what is kept from a seat, by who a message is meant for and what of it that seat may know, give that seat the same payloads, through prompts, retries and broadcasts. |
| `ServerDuelHandlers.HandleReaches` | src/main/java/com/haxerus/duelcraft/server/ServerDuelHandler.java:34-96 | What each seat receives of every message, seat by seat: results both, a prompt the player asked and word of it the other, a broadcast whoever it is meant for, in that seat's copy. |
| `ServerDuelHandlers.DistinctIsSeen` | src/main/java/com/haxerus/duelcraft/server/ServerDuelHandler.java:90-96 | The relation is the finest possible: two prompts, two broadcasts or two results that are not indistinct to a seat it can tell apart. |
| `DuelSessions.DuelSession.ProcessUntilInput` | src/main/java/com/haxerus/duelcraft/duel/DuelSession.java:101-147 | The loop over the engine, with passed chains, refreshes around messages and early exits, is `Loop`; a session that has ended does nothing. |
| `DuelSessions.DuelSession.RunBatch` | src/main/java/com/haxerus/duelcraft/duel/DuelSession.java:112-140 | A batch is handed on up to the message that stops it. |
| `DuelSessions.LoopEndsOnce` | src/main/java/com/haxerus/duelcraft/duel/DuelSession.java:101-147 | However the engine goes on, a call tells each seat served at most one result, exactly with a win, and the listener hears of the end once. |
| `DuelSessions.LoopSeesOnlyItsOwn` | src/main/java/com/haxerus/duelcraft/duel/DuelSession.java:101-147 | Indistinct duels stay indistinct over a call of `process`: what is kept from a seat shows neither in payloads nor in when it is asked. |
| `DuelSessions.DuelSeesOnlyItsOwn` | src/main/java/com/haxerus/duelcraft/duel/DuelSession.java:101-195 | Over a whole duel each seat receives only what it may see. |
| `SoloDuelHandlers.SoloDuelHandler.OnMessage` | src/main/java/com/haxerus/duelcraft/server/SoloDuelHandler.java:55-95 | The solo handler's state, sends and verdict are those of `HandleSolo`. |
| `SoloDuelHandlers.RetriesEndWithHuman` | src/main/java/com/haxerus/duelcraft/server/SoloDuelHandler.java:97-159 | However often the opponent's answers are rejected it answers at most three more times, then the human holds the prompt and is the one who may respond. |
| `SoloDuelHandlers.HandleSoloReaches` | src/main/java/com/haxerus/duelcraft/server/SoloDuelHandler.java:55-95 | What the human receives of every message but a retry: results, prompts, word of the prompts the opponent answers, and the broadcasts meant for the human; nothing is sent to the opponent. |
| `SortSelections.SortSelection.Assign` | src/main/java/com/haxerus/duelcraft/client/SortSelection.java:21-33 | A click appends to the click list or takes the card out of it; the ordinals are its positions. |
| `SortSelections.SortSelection.Response` | src/main/java/com/haxerus/duelcraft/client/SortSelection.java:45-51 | The response holds each card's place in the click list. |
| `SortSelections.SortSelection.OrdinalsExact` | src/main/java/com/haxerus/duelcraft/client/SortSelection.java:12-14 | The assigned ordinals are exactly 1 to the number of cards assigned, each on the card clicked in that place. |
| `SortSelections.SortSelection.CompleteIsPermutation` | src/main/java/com/haxerus/duelcraft/client/SortSelection.java:40-51 | Once complete the ranks are a permutation of 0 to n-1. |
| `SortSelections.ClicksParity` | src/main/java/com/haxerus/duelcraft/client/SortSelection.java:20-33 | After any run of clicks a card is assigned exactly if it was clicked an odd number of times. |
| `SortSelections.AssignAll` | src/main/java/com/haxerus/duelcraft/client/SortSelection.java:21-33 | Any run of clicks leaves the click list of that run. |
| `SeedExpander.ToFourLongs` | src/main/java/com/haxerus/duelcraft/core/SeedExpander.java:8-20 | The four words are the mixed values of four successive counters. |
| `SeedExpander.MixInjective` | src/main/java/com/haxerus/duelcraft/core/SeedExpander.java:14-16 | Mixing loses nothing: both shifts and both multiplications can be undone. |
| `SeedExpander.SeedRecoverable` | src/main/java/com/haxerus/duelcraft/core/SeedExpander.java:8-20 | Every single word tells the seed. |
| `SeedExpander.LanesDiffer` | src/main/java/com/haxerus/duelcraft/core/SeedExpander.java:8-20 | The four words are pairwise different. |
| `SeedExpander.NeverAllZero` | src/main/java/com/haxerus/duelcraft/core/SeedExpander.java:8-20 | The generator's state is never all zero. |
| `DeclarableFilter.Matches` | src/main/java/com/haxerus/duelcraft/client/carddata/DeclarableFilter.java:39-80 | The loop over the opcodes accepts a card exactly if one truthy value is left and the alias and token rules permit. |
| `DeclarableFilter.FindSetCard` | src/main/java/com/haxerus/duelcraft/client/carddata/DeclarableFilter.java:86-95 | The slot loop finds a matching set code exactly if there is one. |
| `DeclarableFilter.PostfixEvaluates` | src/main/java/com/haxerus/duelcraft/client/carddata/DeclarableFilter.java:39-74 | On any stack the postfix form of an expression pushes exactly the expression's value. |
| `DeclarableFilter.AcceptedMeans` | src/main/java/com/haxerus/duelcraft/client/carddata/DeclarableFilter.java:39-80 | A list that is an expression with allowances strewn in accepts a card exactly if the expression is truthy of it and the card permitted. |
| `DeclarableFilter.AllowancesMayMove` | src/main/java/com/haxerus/duelcraft/client/carddata/DeclarableFilter.java:71-72 | ALLOW opcodes may stand anywhere in the list. |
| `DeclarableFilter.MachineMeansExpressions` | src/main/java/com/haxerus/duelcraft/client/carddata/DeclarableFilter.java:97-107 | On any list at all the stack holds the values of the expressions the list denotes. |
| `DeclarableFilter.DenotedWrittenOut` | src/main/java/com/haxerus/duelcraft/client/carddata/DeclarableFilter.java:97-107 | Those expressions written out again are the list without the words that had no effect. |
| `DeclarableWords.ArithmeticYields` | src/main/java/com/haxerus/duelcraft/client/carddata/DeclarableFilter.java:45-57 | The words for sum, difference, product and negation take the top of the stack as right operand and leave the 64-bit result. |
| `DeclarableWords.DivisionYields` | src/main/java/com/haxerus/duelcraft/client/carddata/DeclarableFilter.java:48-49 | The word for division leaves the quotient whose remainder is smaller than the divisor and has the dividend's sign, of signed numbers, and zero for a divisor of zero. |
| `DeclarableWords.QuotientExists` | src/main/java/com/haxerus/duelcraft/client/carddata/DeclarableFilter.java:48-49 | Every division of signed numbers by another than zero has such a quotient. |
| `DeclarableWords.LogicYields` | src/main/java/com/haxerus/duelcraft/client/carddata/DeclarableFilter.java:50-58 | AND, OR and NOT ask for words other than zero and leave one or zero. |
| `DeclarableWords.BitsYield` | src/main/java/com/haxerus/duelcraft/client/carddata/DeclarableFilter.java:52-59 | Every bit of what the bitwise words leave, from the bits of their operands. |
| `DeclarableWords.LeftShiftYields` | src/main/java/com/haxerus/duelcraft/client/carddata/DeclarableFilter.java:55 | Every bit of a left shift: by the lowest six bits of the right operand, zeros coming in. |
| `DeclarableWords.RightShiftYields` | src/main/java/com/haxerus/duelcraft/client/carddata/DeclarableFilter.java:56 | Every bit of a right shift: by the lowest six bits of the right operand, the sign coming in. |
| `DeclarableWords.CardWordsYield` | src/main/java/com/haxerus/duelcraft/client/carddata/DeclarableFilter.java:60-64 | The code is compared with the lowest 32 bits of the operand; type, race and attribute keep the bits they share with it. |
| `DeclarableWords.SetCardYields` | src/main/java/com/haxerus/duelcraft/client/carddata/DeclarableFilter.java:86-95 | One exactly if one of the card's four 16-bit set codes is not zero, has the lowest twelve bits of the operand, and every further bit asked for. |
| `DeclarableWords.GettersYield` | src/main/java/com/haxerus/duelcraft/client/carddata/DeclarableFilter.java:65-68 | The words for code, type, race and attribute put that fact of the card on the stack. |
| `DeclarableWords.OtherWordsYield` | src/main/java/com/haxerus/duelcraft/client/carddata/DeclarableFilter.java:69-73 | The two allowances leave the stack alone and count exactly if they are in the list; any word that is no opcode is put on the stack. |
| `DeckListYdk.ToYdk` | src/main/java/com/haxerus/duelcraft/collection/DeckListWriter.java:7-15 | The text is the header, the three sections and their codes, a line each. |
| `DeckListYdk.ParseYdk` | src/main/java/com/haxerus/duelcraft/collection/DeckListLoader.java:19-72 | The line loop gives the list or the first problem that `Parsed` names. |
| `DeckListYdk.PrintedIsReadBack` | src/main/java/com/haxerus/duelcraft/collection/DeckListLoader.java:19-72 | A printed list of at most 512 cards is read back as it was, and a larger one is refused. |
| `DeckListYdk.AcceptedFits` | src/main/java/com/haxerus/duelcraft/collection/DeckListLoader.java:43-65 | Every accepted text holds positive codes, at most 512. |
| `DeckListYdk.AcceptedIsStable` | src/main/java/com/haxerus/duelcraft/collection/DeckListLoader.java:19-72 | Printing what was read and reading it again gives the same list. |
| `DeckListYdk.AcceptedExactly` | src/main/java/com/haxerus/duelcraft/collection/DeckListLoader.java:19-72 | A text is accepted if and only if no line is at fault and one opens the main deck, and each list then holds, in order, the codes on the lines whose nearest header above is that list's; otherwise the first line at fault is named with what is wrong with it, or the last line if only the main deck is missing. |
| `DeckListYdk.PrintedSays` | src/main/java/com/haxerus/duelcraft/collection/DeckListWriter.java:7-15 | In a printed list of any size the codes under each header are those of that list. |
| `PreparationWire.EncodeRequest` | src/main/java/com/haxerus/duelcraft/server/PreparationWire.java:15-31 | The bytes written are `RequestBytes`, within the budget for every valid request. |
| `PreparationWire.ReceiveRequest` | src/main/java/com/haxerus/duelcraft/server/PreparationWire.java:32-45 | The cursor reads exactly what `DecodeRequest` says, or throws where it says so. |
| `PreparationWire.EncodeState` | src/main/java/com/haxerus/duelcraft/server/PreparationWire.java:46-56 | The bytes written are `StateBytes`, within the budget for every valid state. |
| `PreparationWire.ReceiveState` | src/main/java/com/haxerus/duelcraft/server/PreparationWire.java:57-65 | The cursor reads exactly what `DecodeState` says, or throws where it says so. |
| `PreparationWire.RequestRoundTrip` | src/main/java/com/haxerus/duelcraft/server/PreparationWire.java:15-45 | Every valid request comes back as it was sent, and with any byte after it is refused. |
| `PreparationWire.StateRoundTrip` | src/main/java/com/haxerus/duelcraft/server/PreparationWire.java:46-65 | Every valid state fits the budget, comes back as it was sent, and with any byte after it is refused. |
| `PreparationWire.DecodedStateAccepted` | src/main/java/com/haxerus/duelcraft/server/PreparationWire.java:57-65 | Whatever is decoded, its view passes the constructor's checks. |
| `PreparationWire.DecodedRequestAccepted` | src/main/java/com/haxerus/duelcraft/server/PreparationWire.java:32-45 | Whatever is decoded, its command passes the constructor's checks. |
| `PreparationWire.UtfTaken` | src/main/java/com/haxerus/duelcraft/server/PreparationWire.java:46-62 | Text of at most the allowed length comes back as it was written. |

## Left out

- ClientDuel.ClientDuelState.ApplyMessage: of the messages on these lines the thirteen that move cards or links are modelled, since the others, and the query attributes, write on single cards only.
- The client board's highlights, dirty flags, log lines, stats, counters, hints, combat display and query attributes; UpdateData is kept as the resizing of a pile only, and UpdateCard, ConfirmCards, DeckTop, ShuffleDeck and ShuffleExtra, which only rewrite codes, are not modelled.
- The iteration order of the client's link sets, which are sets here.
- `revisions` overflowing a Java `long` (`Math.incrementExact` would throw); `DuelPreparationService.clear`, which only a shutdown calls, is modelled in the manager.
- DuelManagers.DuelManager.First: the record of a logout during a start belongs to the service and is proved there; the manager, which runs on one thread, sees none.
- DuelManagers.DuelManager.Process: the manager holds a session as the value `DuelSession.dfy` proves its class to have, so sharing of session objects is not modelled there; announcements, chat messages, decks and collection data are not either.
- DuelManagers.DuelManager.Prepare: which flows a view or callback finds expired is arbitrary here, and is exact in the preparation service.
- The solo opponent's choice of answers is an arbitrary function of the prompt; SumSelection, ResponseBuilder and ResponseValidator are not part of this model.
- Which queries RefreshSchedule asks for: a session's refreshes are arbitrary query results around each message.
- Hidden information in solo duels: a prompt the opponent cannot answer is handed to the human as it is, on purpose.
- CollectionClients.CollectionClient.TimerFires: a timer may fire for any request at any time, so cancelling timers has no effect to state.
- Null fields in collection replies, which the packet codec cannot produce.
- DeckListYdk.ParseYdk: `Integer.parseInt` also reads non-ASCII digits, and `toLowerCase` depends on the locale; both are modelled for ASCII.
- PreparationWire.ReceiveState: text that is not well-formed UTF-8 is refused here where the library replaces it.
- User interface, native bridge, database, registration, commands, configuration and scenarios.
