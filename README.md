# Round state machine of a peer-to-peer party card game

The game runs in the browser. One player's page acts as the **host**, and the
other players connect to it peer to peer. Every peer keeps one mutable
`gameState` record. A set of handlers drive it, each running to completion:

- inbound messages, dispatched by type in `handleGameMessage`;
- the host's own actions: start the game, start the next round;
- the local player's clicks: play a card, pick a winner.

A round goes SELECTING → JUDGING → SHOWING_WINNER (or GAME_OVER). Everyone
except the **czar** plays one response card from their hand. The host starts
judging once it holds one play per player but the czar. The czar picks a
winner, who scores a point. After a 3-second timer the host rotates the
czar role to the next player on the roster, deals one new card to each of
the others, and broadcasts the next round.

The model is in Dafny and splits into these modules:

- `CahTypes` (`types.dfy`): players, cards, plays, the phases, the setups
  the host broadcasts, the message types, and the constants `MinPlayers` = 2,
  `CardsPerHand` = 10, `PointsToWin` = 5.
- `Plays` (`plays.dfy`): the list of plays of a round. Covers replace-or-insert
  of a player's play, finding a player's play, and uniqueness of submitters.
- `Roster` (`roster.dfy`): roster lookup and removal, and czar rotation.
- `Deal` (`deal.dfy`): the two dealing loops. They are the opening deal of
  `setupNewGame` and the one-card top-up of `startNewRound`, both methods
  with loop invariants.
- `GameRules` (`rules.dfy`): the whole `gameState` as a value `State`, and
  each handler as a step function, or as a relation where the handler
  shuffles. Outgoing messages are appended to an `outbox`.
- `Peer` (`peer.dfy`): class `GameState`. It holds the fields of `gameState`,
  and its methods update them in place. Each method is proved to leave the
  object in the state its step function gives from the state before the
  call.
- `RoundProperties` (`properties.dfy`): properties that span several
  handlers or many rounds.
- `Findings` (`findings.dfy`): two defects in the handlers, each shown as
  written and then as corrected.

## Model

| member | source | states |
|---|---|---|
| GameRules.InitialState | script.js:7-25 | A new peer has no phase, no plays, no hand and no czar. A host's roster is itself, as host; a joining peer's roster is empty. |
| Peer.GameState.constructor | script.js:7-25 | The new object's fields are exactly `InitialState`. |
| Plays.WithoutPlayer | script.js:621 | The filtered plays are exactly the old plays not by that player, and that player has no entry left. |
| Plays.Submit | script.js:621-629 | After a play is submitted, it is the last entry. The entries before it are the old ones minus that player's. The submitters gain exactly that player. |
| Plays.SubmitEntries | script.js:621-629 | After a submission the submitter has exactly one entry, the new play. Every other player keeps their entries in the same order. |
| Plays.WithoutPlayerKeepsUnique | script.js:621 | Filtering a player out keeps the plays free of duplicate submitters. |
| Plays.SubmitKeepsUnique | script.js:621-629 | A submission keeps the plays free of duplicate submitters. |
| Plays.FindPlay | script.js:709 | `find` by player id returns a play exactly when that player has one, and it is the player's first entry. |
| Plays.UniqueCount | script.js:643 | With no duplicate submitters, the number of plays equals the number of players who played. |
| Plays.SubmittersBound | script.js:643 | There are never more submitters than plays. There are as many only when no player has two plays. |
| Plays.PermutationKeepsUnique | script.js:665-680 | Reordering the plays keeps the same submitters and keeps them unique. |
| Roster.IndexOf | script.js:574 | `findIndex` by id returns -1 exactly when the id is not on the roster. Otherwise it is the first matching index. |
| Roster.RemoveById | script.js:184 | The filtered roster holds exactly the players with another id. Its ids are the old ids minus that one. An absent id changes nothing. |
| Roster.RemoveExactlyOne | script.js:182-184 | On a roster without duplicate ids, removing player `k` leaves exactly the players before and after `k`, in order. |
| Roster.WrapAround | script.js:575 | `(i + 1) % n` is `i + 1`, or 0 after the last index. |
| Roster.NextCzarIndex | script.js:574-576 | The next czar's index is on the roster. It is 0 when the czar is unset or not on the roster. |
| Roster.NextCzarFollowsCzar | script.js:574-576 | The next czar comes right after the first roster entry holding the czar's id, or is the first player when that entry is the last. |
| Roster.NextOfMember | script.js:574-576 | On a roster without duplicate ids, the czar after player `i` is player `i + 1`, or player 0 after the last. |
| Roster.WalkWraps | script.js:575 | Up to `n` rotations from index `i` reach `i + m`, wrapping round once past the end. |
| Roster.WalkCycles | script.js:575 | `n` rotations on a roster of `n` return to the start. |
| Deal.HandSlice | script.js:498 | A hand is at most `CardsPerHand` cards. It is exactly that many while the deck lasts. |
| Deal.DealtIsPrefix | script.js:497-500 | The hands dealt to the first `n` players tile the front of the deck in order. No card goes to two players and none is skipped. |
| Deal.DealHands | script.js:496-501 | The opening deal loop gives every roster id a hand: the slice at its last position on the roster. It writes 0 as every roster player's score, keeps the other scores, and leaves the rest of the deck. |
| Deal.NewCardsFor | script.js:583-593 | The new cards never go to the next czar, go only to roster players, and come from the white deck. |
| Deal.DealNewCards | script.js:582-593 | The top-up loop builds exactly `NewCardsFor`. |
| Deal.NewCardsCoverRoster | script.js:583-593 | While the white deck has a card at every position asked for, every player except the next czar gets one. |
| GameRules.Credit | script.js:718 | The winner's score, absent counting as 0, rises by exactly 1. No other score moves, and no new score entry appears except the winner's. |
| GameRules.BlackCardAt | script.js:579 | The next prompt exists exactly when the round number indexes the unshuffled deck. |
| GameRules.JoinRequestStep | script.js:259-294 | A non-host ignores a join request. The host appends the joiner as a non-host and broadcasts the new roster. If the joiner's connection is open, the host then sends the joiner a confirmation carrying the new roster, the host's id and the game snapshot. Nothing else changes. |
| GameRules.SnapshotOf | script.js:285-291 | A joiner is handed the game state exactly when a phase is set. The snapshot then carries the host's phase, prompt, czar, plays and scores. |
| GameRules.JoinConfirmedStep | script.js:209-222 | A joiner takes the roster, and the running game's phase, prompt, czar, plays and scores when present. Nothing else changes. |
| GameRules.RemoveStep | script.js:181-196 | An unknown id changes nothing. Otherwise exactly that id leaves the roster, and a disconnect is broadcast. State other than roster and outbox changes only when the host loses the czar. |
| GameRules.StartGameStep | script.js:514-534 | A setup without hands or prompts is refused. Otherwise the peer takes its hand (none if absent), the first prompt (if any), the czar and the round. It enters SELECTING with no plays and an emptied score map, so every score reads 0. |
| GameRules.PlayCardStep | script.js:844-860 | Outside SELECTING, or as the czar, nothing happens. Otherwise exactly that card leaves the hand, becomes the selected card and is broadcast. The peer's own plays are untouched. |
| GameRules.PlayOwnCardOutcome | script.js:844-860 | Corrected `playCard`: on the host, outside the czar role and in SELECTING, the own play also goes through `handlePlayedCard`. |
| GameRules.JudgingOutcome | script.js:660-683 | The host's judging start: the plays and the judging order become one reordering of the plays, that order is broadcast, and the phase is JUDGING. |
| GameRules.PlayedCardOutcome | script.js:611-657 | Outside SELECTING a play is ignored. Otherwise it replaces the player's earlier play. The host broadcasts the plays and starts judging at one play per player but the czar; a non-host czar switches its own view at the same count. |
| GameRules.JudgingStartStep | script.js:686-698 | A judging start sets both the plays and the judging order to the host's list and enters JUDGING. |
| GameRules.CzarChoiceStep | script.js:701-737 | A winner without a play in the judging order (or the plays, before judging) changes nothing. Otherwise the round winner is that play, and the winner's score rises by 1 with no other score moving. The game ends at `PointsToWin`; otherwise the winner is shown and the host schedules one round. |
| GameRules.SelectWinnerStep | script.js:740-761 | Only the czar in JUDGING, naming a player with a play, acts. The choice is broadcast and then applied as a czar choice. |
| GameRules.NextRoundSetup | script.js:570-598 | The next czar is a roster player and gets no new card. New cards go only to roster players and come from the white deck. The round number rises by one. |
| GameRules.ApplyRoundSetup | script.js:537-567 | A setup missing a prompt or a (truthy) czar changes nothing. Otherwise the peer enters SELECTING with no selected card or winner. Plays are cleared only on the peer that was czar. The hand grows by exactly the card dealt to this peer, if any. |
| GameRules.AdvanceRound | script.js:570-608 | A non-host, or a host with an empty roster, is unchanged. The roster, scores and deck are never changed. |
| GameRules.AdvanceRoundEffect | script.js:570-608 | On the host the new round is broadcast. A valid setup moves the czar to the player after the current one, raises the round number by 1 and enters SELECTING. An invalid setup changes only the outbox. |
| GameRules.MessageOutcome | script.js:199-256 | Each message type is handled by its step. `error`, `player_disconnected` and unknown types change nothing. |
| GameRules.TimerStep | script.js:732-736 | A pending round timer is used up and starts the next round. With none pending nothing happens. |
| GameRules.ApplyRoundSetupClearing | script.js:549-552 | Corrected new round: the same as `ApplyRoundSetup`, except that every peer starts the round with no plays and no judging order. |
| GameRules.AdvanceRoundClearing | script.js:570-608 | Corrected round advance: the same as `AdvanceRound` apart from the plays, which are empty in a valid new round. |
| RoundProperties.PlayedCardPlays | script.js:611-657 | An accepted play ends up among the plays, and the submitters gain exactly its player. Uniqueness is kept. The plays are the replace-or-insert result, reordered only when judging starts. |
| RoundProperties.HostJudgesWhenAllPlayed | script.js:632-656 | On the host, with unique submitters, a play starts judging exactly when the submitters number one fewer than the roster. Otherwise the phase stays SELECTING. |
| RoundProperties.JoinerCatchesUp | script.js:209-222 | A joiner that handles the host's confirmation takes the host's new roster. Once a game has started, it also takes the host's phase, prompt, czar, plays and scores; before that it keeps its own. |
| RoundProperties.CzarPlayIsAccepted | script.js:611-629 | A play by the czar is recorded like any other. |
| RoundProperties.MessageScores | script.js:199-256 | Apart from a game start or a join confirmation, no message lowers a score. Only a czar choice naming a player with a play raises one, by exactly 1. |
| RoundProperties.MessageKeepsUniquePlays | script.js:199-256 | Every message except those that copy a list of plays keeps the plays free of duplicate submitters. |
| RoundProperties.AdvanceKeepsUniquePlays | script.js:549-552 | A round advance keeps the plays free of duplicate submitters. |
| RoundProperties.RoundDriversKeepUniquePlays | script.js:191-194 | So do a round forced by the czar leaving and one fired by the timer. |
| RoundProperties.RemoveKnownPlayer | script.js:181-196 | Removing a player on a roster with unique ids removes exactly that entry and broadcasts the disconnect. A new round follows only when the host loses the czar. |
| RoundProperties.AdvanceOnce | script.js:570-608 | With a prompt left and no empty ids, one advance moves the czar to the next player, counts one round and keeps the roster. |
| RoundProperties.RunRotatesCzar | script.js:574-576 | Along any run of round advances, the czar walks down the fixed roster one place per round, wrapping round, and one round is counted per advance. |
| RoundProperties.CzarReturnsAfterFullRotation | script.js:574-576 | `n` round advances on a roster of `n` distinct players give the czar role back to whoever held it. |
| RoundProperties.CzarLeavingPassesToFirstPlayer | script.js:191-194 | When the czar leaves the host's table, the first remaining player becomes czar in a new SELECTING round, from any phase, while a prompt card remains. |
| RoundProperties.HostGameStart | script.js:492-534 | The host's game start gives round 1 in SELECTING, a czar from the roster and every score 0. The host's hand is its slice of the shuffled deck. The first prompt comes from the deck whenever it has one. |
| Findings.HostPlayStallsRound | script.js:844-860 | As written: the host broadcasts its own play but never counts it, so a full round of plays leaves it in SELECTING. |
| Findings.OwnPlayCounts | script.js:844-860 | Corrected: the host's own play is recorded, and judging starts exactly when that makes one play per player but the czar. |
| Findings.StalePlaysJudgedEarly | script.js:549-552 | As written: a host that was not czar keeps the last round's plays. Its first play of the next round starts judging, with the new czar's old play included. |
| Findings.ClearedRoundStartsEmpty | script.js:549-552 | Corrected: the first play of a new round is the only one the host holds. |
| Peer.GameState.HandleGameMessage | script.js:199-256 | Each message type is routed to its handler. `error`, `player_disconnected` and unknown types change nothing. |
| Peer.GameState.HandleJoinConfirmed | script.js:209-222 | The fields become `JoinConfirmedStep` of the old state. |
| Peer.GameState.HandleCardsUpdate | script.js:247-251 | Only the plays and the phase change, to the message's. |
| Peer.GameState.HandleJoinRequest | script.js:259-294 | The fields become `JoinRequestStep` of the old state. On the host that is the joiner appended, the roster broadcast and, over an open connection, the confirmation with the game snapshot. |
| Peer.GameState.RemovePlayer | script.js:181-196 | The fields become `RemoveStep` of the old state. |
| Peer.GameState.HostStartGame | script.js:474-489 | A non-host, or fewer than `MinPlayers`, changes nothing. Otherwise a dealt setup is broadcast, then applied as a game start. |
| Peer.GameState.SetupNewGame | script.js:492-511 | The setup is a deal of shuffled decks with a first czar from the roster and round 1. Only the scores change: each roster player's is set to 0. |
| Peer.GameState.StartGame | script.js:514-534 | The fields become `StartGameStep` of the old state. |
| Peer.GameState.HandleNewRound | script.js:537-567 | The fields become `ApplyRoundSetup` of the old state. |
| Peer.GameState.HandleNewRoundClearing | script.js:549-552 | Corrected handler: the fields become `ApplyRoundSetupClearing` of the old state. |
| Peer.GameState.StartNewRound | script.js:570-608 | The fields become `AdvanceRound` of the old state. |
| Peer.GameState.NextSetup | script.js:572-598 | The setup built is exactly `NextRoundSetup` of the current state. |
| Peer.GameState.NextCzar | script.js:574-576 | The `(i + 1) % n` lookup gives the player at `NextCzarIndex`. |
| Peer.GameState.TimerFires | script.js:732-736 | The fields become `TimerStep` of the old state. |
| Peer.GameState.PlayCard | script.js:844-860 | The fields become `PlayCardStep` of the old state. |
| Peer.GameState.PlayOwnCard | script.js:844-860 | Corrected handler: the host also hands its own play to `handlePlayedCard`. |
| Peer.GameState.HandlePlayedCard | script.js:611-657 | The old and new state satisfy `PlayedCardOutcome`. Outside SELECTING nothing changes. On the host the plays are broadcast, and judging starts at one play per player but the czar. |
| Peer.GameState.StartJudging | script.js:660-683 | The host enters JUDGING. Both the plays and the judging order become one reordering of the plays, which is broadcast. |
| Peer.GameState.HandleJudgingStart | script.js:686-698 | The fields become `JudgingStartStep` of the old state. |
| Peer.GameState.HandleCzarChoice | script.js:701-737 | The fields become `CzarChoiceStep` of the old state. |
| Peer.GameState.SelectWinner | script.js:740-761 | The fields become `SelectWinnerStep` of the old state. |

## Left out

- PeerJS transport, connection set-up and reconnects are left out. The set of open connections is a constant field, and every `send` or `broadcastToAll` is an append to `outbox`.
- Rendering, status messages and the waiting-room text are left out. The `error` and `player_disconnected` messages only affect the screen, so they change no state.
- `loadGameData` is a fetch. The deck pair is a constructor argument.
- `_.shuffle` is modelled as an arbitrary reordering, and `Math.random` as an arbitrary roster index. The shuffle's distribution is not modelled.
- The 3-second timer is a counter of pending timers, `scheduledRounds`, and an explicit `TimerFires` step. Elapsed time is not modelled.
- The JSON deep copy before the judging shuffle needs nothing: Dafny values are already copies.
- Peers run concurrently and messages interleave across them. The model is one peer handling one message at a time.
- Peer.GameState.PlayCard: requires the index to lie inside the hand. Out of range, `splice` yields `undefined` and the card broadcast is undefined, which the model does not represent.
- Peer.GameState.SetupNewGame: requires a non-empty roster. On an empty roster `Math.random() * 0` indexes nothing and the `.id` access throws. `hostStartGame` only calls it with at least `MinPlayers` players.
- `startNewRound` on an empty roster throws before changing anything. `AdvanceRound` leaves the state unchanged there.
- `roundNumber` is `undefined` before the first game. The model starts it at 0. Nothing reads it before `startGame` sets it.
- Bots are not part of this code. The rotation takes every player in roster order.
- RoundProperties.RunRotatesCzar: stated only for runs where the deck has a prompt for every round and the roster ids are non-empty and distinct. Without those, an advance can leave the czar unchanged (an invalid setup), and rotation by first matching id is not a cycle.

The code departs from the usual rules of the game in these places, and the model follows the code:

- The czar's own play is accepted.
- `score_update` is never sent.
- GAME_OVER is not terminal: a czar leaving the host's table starts a new round.
- New cards are withheld from the next czar, not from the outgoing one.
- The next prompt is read from the unshuffled deck at `roundNumber`.
- `startGame` empties the score map that `setupNewGame` filled with zeros.
- `handleCzarChoice` checks neither the phase nor who sent the choice.

## Findings

The peer methods model the handlers as written. The corrected definitions
sit beside them. `Peer.GameState.PlayOwnCard` goes with `GameRules.PlayOwnCardOutcome`,
and `Peer.GameState.HandleNewRoundClearing` with `GameRules.ApplyRoundSetupClearing`.
`GameRules.AdvanceRoundClearing` is the corrected `startNewRound` on values, built on
`ApplyRoundSetupClearing`.
The second finding's as-written lemma uses the corrected `playCard`, so that
the first defect does not hide the second.

| source | as written | input that shows it | evidently intended | confidence | as-written member | corrected member |
|---|---|---|---|---|---|---|
| script.js:844-860 | `playCard` only broadcasts the play to the connected peers, and nothing sends it back to the host. So the host's own play never enters its list of plays. | A host with two other players, not czar, no plays yet. The host plays, then the other player who is not czar plays. The host holds one play, waits for two, and stays in SELECTING. | The host hands its own play to `handlePlayedCard`, so both plays count and judging starts. | not executed | Findings.HostPlayStallsRound | Findings.OwnPlayCounts |
| script.js:549-552 | `handleNewRound` clears `playedCards` and `judgingCards` only on the peer that was czar. A host that was not czar carries the last round's plays into the next round. | A host with two other players, not czar. It holds the last round's plays of itself and of the player who becomes czar. After the round advance the host plays once; that makes two plays and starts judging, with the new czar's old play among them. | Every peer, the host included, starts a new round with no plays. | not executed | Findings.StalePlaysJudgedEarly | Findings.ClearedRoundStartsEmpty |
