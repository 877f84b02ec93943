/**
 * One peer of the game as the mutable object the handlers work on: the
 * fields of `gameState`, updated in place by the message handlers and the
 * host's round driver. Every method is proved against the step function (or
 * relation) of module `GameRules` applied to the state before the call.
 */
module Peer {
  import opened CahTypes
  import opened Plays
  import opened Roster
  import opened Deal
  import opened GameRules

  class GameState {
    const localId: PlayerId
    const playerName: string
    const isHost: bool
    /** Peers with an open connection to this one (only the host holds any). */
    const connections: set<PlayerId>
    const gameData: GameData

    var players: seq<Player>
    var hand: seq<Card>
    var blackCard: Option<Card>
    var playedCards: seq<PlayedCard>
    var judgingCards: Option<seq<PlayedCard>>
    var czar: Option<PlayerId>
    var phase: Phase
    var scores: map<PlayerId, int>
    var roundNumber: int
    var selectedCard: Option<Card>
    var roundWinner: Option<PlayedCard>
    var gameWinner: Option<PlayedCard>
    /** Pending 3-second "start the next round" timers. */
    var scheduledRounds: nat
    /** Every message this peer has sent, oldest first. */
    var outbox: seq<Outbound>

    /** The fields as one value. */
    function State(): State
      reads this
    {
      GameRules.State(localId, playerName, isHost, connections, gameData, players, hand, blackCard,
                      playedCards, judgingCards, czar, phase, scores, roundNumber, selectedCard,
                      roundWinner, gameWinner, scheduledRounds, outbox)
    }

    /**
     * A peer with its deck loaded. A host starts with itself on the roster;
     * a joining peer starts with an empty roster until the host's
     * `player_list` or `join_confirmed` arrives. No game is in progress.
     */
    constructor(localId: PlayerId, playerName: string, isHost: bool, connections: set<PlayerId>,
                gameData: GameData)
      ensures State() == InitialState(localId, playerName, isHost, connections, gameData)
    {
      this.localId := localId;
      this.playerName := playerName;
      this.isHost := isHost;
      this.connections := connections;
      this.gameData := gameData;
      players := if isHost then [Player(localId, playerName, true)] else [];
      hand := [];
      blackCard := None;
      playedCards := [];
      judgingCards := None;
      czar := None;
      phase := Unset;
      scores := map[];
      roundNumber := 0;
      selectedCard := None;
      roundWinner := None;
      gameWinner := None;
      scheduledRounds := 0;
      outbox := [];
    }

    // -------------------------------------------------------------------------
    // Inbound messages

    /** `handleGameMessage`: dispatch one inbound message from `sender` by its type. */
    method HandleGameMessage(m: Message, sender: PlayerId)
      modifies this
      ensures MessageOutcome(old(State()), m, sender, State())
    {
      match m
      case ErrorMessage(_) =>
      case JoinRequest(id, name) =>
        HandleJoinRequest(id, name, sender);
      case JoinConfirmed(roster, _, game) =>
        HandleJoinConfirmed(roster, game);
      case PlayerList(roster) =>
        players := roster;
      case StartGame(setup) =>
        StartGame(setup);
      case PlayedCardMessage(p) =>
        HandlePlayedCard(p);
      case JudgingStart(cards, _) =>
        HandleJudgingStart(cards);
      case CzarChoice(winnerId, _, _) =>
        HandleCzarChoice(winnerId);
      case NewRound(setup) =>
        HandleNewRound(setup);
      case PlayerDisconnected(_, _) =>
      case CardsUpdate(plays, newPhase) =>
        HandleCardsUpdate(plays, newPhase);
      case Unknown(_) =>
    }

    /** `join_confirmed`: take the host's roster and, if a game is running, its state. */
    method HandleJoinConfirmed(roster: seq<Player>, game: Option<Snapshot>)
      modifies this
      ensures State() == JoinConfirmedStep(old(State()), roster, game)
    {
      players := roster;
      if game.Some? {
        AdoptSnapshot(game.value);
      }
    }

    /** Take over the phase, prompt, czar, plays and scores of a running game. */
    method AdoptSnapshot(g: Snapshot)
      modifies this
      ensures State() == old(State()).(phase := g.phase, blackCard := g.blackCard, czar := g.czar,
                                        playedCards := g.playedCards, scores := g.scores)
    {
      phase := g.phase;
      blackCard := g.blackCard;
      czar := g.czar;
      playedCards := g.playedCards;
      scores := g.scores;
    }

    /** `cards_update`: mirror the host's plays and phase. */
    method HandleCardsUpdate(plays: seq<PlayedCard>, newPhase: Phase)
      modifies this
      ensures State() == old(State()).(playedCards := plays, phase := newPhase)
    {
      playedCards := plays;
      phase := newPhase;
    }

    /** `handleJoinRequest`: the host adds the joiner, broadcasts the roster and confirms to the joiner. */
    method HandleJoinRequest(id: PlayerId, name: string, peer: PlayerId)
      modifies this
      ensures State() == JoinRequestStep(old(State()), id, name, peer)
    {
      if !isHost {
        return;
      }
      players := players + [Player(id, name, false)];
      Send(Broadcast(PlayerList(players)));
      if peer in connections {
        var game := if phase == Unset then None
                    else Some(Snapshot(phase, blackCard, czar, playedCards, scores));
        Send(SendTo(peer, JoinConfirmed(players, localId, game)));
      }
    }

    /**
     * `removePlayer`: drop a player on the roster, announce it, and on the
     * host start a new round when the player was the czar.
     */
    method RemovePlayer(id: PlayerId)
      modifies this
      ensures State() == RemoveStep(old(State()), id)
    {
      var i := IndexOf(players, id);
      if i < 0 {
        return;
      }
      var removed := players[i];
      players := RemoveById(players, id);
      Send(Broadcast(PlayerDisconnected(id, removed.name)));
      if czar == Some(id) && isHost {
        StartNewRound();
      }
    }

    // -------------------------------------------------------------------------
    // Game start

    /**
     * `hostStartGame`: only the host, and only with at least `MinPlayers`
     * players, deals a new game, broadcasts the setup and starts it locally.
     * `whiteOrder` is the shuffled white deck the hands were cut from.
     */
    method HostStartGame() returns (setup: Option<GameSetup>, ghost whiteOrder: seq<Card>)
      modifies this
      ensures !old(isHost && |players| >= MinPlayers) ==> setup.None? && State() == old(State())
      ensures old(isHost && |players| >= MinPlayers) ==>
                && setup.Some?
                && DealtSetup(setup.value, whiteOrder, old(players), gameData)
                && State() == StartGameStep(old(State()).(outbox := old(outbox) + [Broadcast(Message.StartGame(setup.value))]),
                                            setup.value)
    {
      whiteOrder := [];
      if !isHost || |players| < MinPlayers {
        return None, whiteOrder;
      }
      var dealt;
      dealt, whiteOrder := SetupNewGame();
      Send(Broadcast(Message.StartGame(dealt)));
      StartGame(dealt);
      setup := Some(dealt);
    }

    /**
     * `setupNewGame`: shuffle both decks, cut each player's hand off the
     * shuffled white deck in roster order while writing a 0 score for them,
     * and pick a random first czar. A shuffle is any reordering of the deck.
     */
    method SetupNewGame() returns (setup: GameSetup, ghost whiteOrder: seq<Card>)
      requires |players| > 0
      modifies this
      ensures DealtSetup(setup, whiteOrder, players, gameData)
      ensures ZeroedScores(old(scores), players, scores)
      ensures State() == old(State()).(scores := scores)
    {
      var blacks :| multiset(blacks) == multiset(gameData.black);
      var whites :| multiset(whites) == multiset(gameData.white);
      whiteOrder := whites;
      var hands, _, newScores := DealHands(players, whites, scores);
      scores := newScores;
      var k :| 0 <= k < |players|;
      assert players[k].id in Ids(players);
      setup := GameSetup(Some(blacks), Some(hands), Some(players[k].id), 1);
    }

    /** `startGame`: take this peer's hand, the first prompt and czar, and enter SELECTING. */
    method StartGame(setup: GameSetup)
      modifies this
      ensures State() == StartGameStep(old(State()), setup)
    {
      if setup.playerHands.None? || setup.blackCards.None? {
        return;
      }
      var hands := setup.playerHands.value;
      hand := if localId in hands then hands[localId] else [];
      blackCard := if |setup.blackCards.value| > 0 then Some(setup.blackCards.value[0]) else None;
      czar := setup.firstCzar;
      EnterFirstRound(setup.roundNumber);
    }

    /** Enter SELECTING at round `round` with no plays and an empty score map. */
    method EnterFirstRound(round: int)
      modifies this
      ensures State() == old(State()).(phase := Selecting, roundNumber := round, playedCards := [], scores := map[])
    {
      phase := Selecting;
      roundNumber := round;
      playedCards := [];
      scores := map[];
    }

    // -------------------------------------------------------------------------
    // Rounds

    /** `handleNewRound`: take the new prompt, czar and round, and any card dealt to this peer. */
    method HandleNewRound(setup: RoundSetup)
      modifies this
      ensures State() == ApplyRoundSetup(old(State()), setup)
    {
      if !(setup.blackCard.Some? && Truthy(setup.czar)) {
        return;
      }
      var previousCzar := czar;
      TakeRound(setup);
      ResetRoundView();
      if previousCzar == Some(localId) {
        ClearPlays();
      }
      if localId in setup.newCards {
        hand := hand + [setup.newCards[localId]];
      }
    }

    /**
     * `handleNewRound` as the round protocol intends it: every peer, not
     * only the outgoing czar, starts the new round with no plays.
     */
    method HandleNewRoundClearing(setup: RoundSetup)
      modifies this
      ensures State() == ApplyRoundSetupClearing(old(State()), setup)
    {
      HandleNewRound(setup);
      if setup.blackCard.Some? && Truthy(setup.czar) {
        ClearPlays();
      }
    }

    /** Take the prompt, czar and round number of a new round. */
    method TakeRound(setup: RoundSetup)
      modifies this
      ensures State() == old(State()).(blackCard := setup.blackCard, czar := setup.czar,
                                        roundNumber := setup.roundNumber)
    {
      blackCard := setup.blackCard;
      czar := setup.czar;
      roundNumber := setup.roundNumber;
    }

    /** Forget the selected card and the round winner and go back to SELECTING. */
    method ResetRoundView()
      modifies this
      ensures State() == old(State()).(selectedCard := None, roundWinner := None, phase := Selecting)
    {
      selectedCard := None;
      roundWinner := None;
      phase := Selecting;
    }

    /** The part of `handleNewRound` only the outgoing czar does: forget the round's plays. */
    method ClearPlays()
      modifies this
      ensures State() == old(State()).(playedCards := [], judgingCards := None)
    {
      playedCards := [];
      judgingCards := None;
    }

    /**
     * `startNewRound` on the host: rotate the czar, take the next prompt,
     * deal one card to everyone but the next czar, broadcast the setup and
     * apply it locally.
     */
    method StartNewRound()
      modifies this
      ensures State() == AdvanceRound(old(State()))
    {
      if !isHost || |players| == 0 {
        return;
      }
      var setup := NextSetup();
      Send(Broadcast(NewRound(setup)));
      HandleNewRound(setup);
    }

    /**
     * The setup the host broadcasts for the next round: the player after the
     * czar, the prompt card at the round number, one white card for each
     * other player.
     */
    method NextSetup() returns (setup: RoundSetup)
      requires |players| > 0
      ensures setup == NextRoundSetup(State())
    {
      var nextCzar := NextCzar();
      var nextBlackCard := BlackCardAt(gameData.black, roundNumber);
      var newCards := DealNewCards(players, gameData.white, roundNumber, nextCzar);
      setup := RoundSetup(nextBlackCard, Some(nextCzar), roundNumber + 1, newCards);
    }

    /** The id of the player after the czar on the roster, the first player when the czar is not on it. */
    method NextCzar() returns (id: PlayerId)
      requires |players| > 0
      ensures id == players[NextCzarIndex(players, czar)].id
    {
      var czarIndex := if czar.None? then -1 else IndexOf(players, czar.value);
      WrapAround(czarIndex + 1, |players|);
      id := players[(czarIndex + 1) % |players|].id;
    }

    /** One of the host's pending round timers fires. */
    method TimerFires()
      modifies this
      ensures State() == TimerStep(old(State()))
    {
      if scheduledRounds == 0 {
        return;
      }
      scheduledRounds := scheduledRounds - 1;
      StartNewRound();
    }

    // -------------------------------------------------------------------------
    // Submissions and judging

    /**
     * `playCard`: outside SELECTING or as the czar, nothing; otherwise take
     * the card out of the hand, remember it and broadcast it.
     */
    method PlayCard(index: nat)
      requires index < |hand|
      modifies this
      ensures State() == PlayCardStep(old(State()), index)
    {
      if phase != Selecting || czar == Some(localId) {
        return;
      }
      var card := hand[index];
      hand := hand[..index] + hand[index + 1..];
      selectedCard := Some(card);
      Send(Broadcast(PlayedCardMessage(PlayedCard(localId, playerName, card))));
    }

    /**
     * `playCard` as the protocol intends it on the host: the host's own play
     * is also handed to `handlePlayedCard`, so it is counted like everyone
     * else's.
     */
    method PlayOwnCard(index: nat)
      requires index < |hand|
      modifies this
      ensures PlayOwnCardOutcome(old(State()), index, State())
    {
      var played := phase == Selecting && czar != Some(localId);
      var card := hand[index];
      PlayCard(index);
      if played && isHost {
        HandlePlayedCard(PlayedCard(localId, playerName, card));
      }
    }

    /**
     * `handlePlayedCard`: in SELECTING, replace the player's earlier play;
     * the host broadcasts the plays and starts judging once there are
     * `players.length - 1`; a czar peer switches to JUDGING at that count.
     */
    method HandlePlayedCard(p: PlayedCard)
      modifies this
      ensures PlayedCardOutcome(old(State()), p, State())
    {
      if phase != Selecting {
        return;
      }
      RecordPlay(p);
      if isHost {
        Send(Broadcast(CardsUpdate(playedCards, phase)));
        if |playedCards| == |players| - 1 {
          StartJudging();
          return;
        }
      }
      if czar == Some(localId) && |playedCards| == |players| - 1 {
        phase := Judging;
      }
    }

    /** Drop any earlier play by `p`'s player and append `p`. */
    method RecordPlay(p: PlayedCard)
      modifies this
      ensures State() == old(State()).(playedCards := Submit(old(playedCards), p))
    {
      playedCards := WithoutPlayer(playedCards, p.playerId);
      playedCards := playedCards + [p];
    }

    /** Queue one outbound message. */
    method Send(m: Outbound)
      modifies this
      ensures State() == old(State()).(outbox := old(outbox) + [m])
    {
      outbox := outbox + [m];
    }

    /** `startJudging`: shuffle the plays, broadcast them, and keep the shuffle as both lists. */
    method StartJudging()
      modifies this
      ensures JudgingOutcome(old(State()), State())
    {
      phase := Judging;
      var shuffled :| multiset(shuffled) == multiset(playedCards);
      Send(Broadcast(JudgingStart(shuffled, blackCard)));
      playedCards := shuffled;
      judgingCards := Some(shuffled);
    }

    /** `handleJudgingStart`: take the host's judging order and enter JUDGING. */
    method HandleJudgingStart(cards: seq<PlayedCard>)
      modifies this
      ensures State() == JudgingStartStep(old(State()), cards)
    {
      judgingCards := Some(cards);
      playedCards := cards;
      phase := Judging;
    }

    /**
     * `handleCzarChoice`: find the winner's play, score one point, and
     * either end the game or show the winner (the host then arms the timer).
     */
    method HandleCzarChoice(winnerId: PlayerId)
      modifies this
      ensures State() == CzarChoiceStep(old(State()), winnerId)
    {
      var cardsToCheck := if judgingCards.Some? then judgingCards.value else playedCards;
      var winner := FindPlay(cardsToCheck, winnerId);
      if winner.None? {
        return;
      }
      AwardPoint(winner.value);
      if scores[winner.value.playerId] >= PointsToWin {
        EndGame(winner.value);
        return;
      }
      ShowWinner();
    }

    /** The winner has reached `PointsToWin`: the game is over. */
    method EndGame(w: PlayedCard)
      modifies this
      ensures State() == old(State()).(gameWinner := Some(w), phase := GameOver)
    {
      gameWinner := Some(w);
      phase := GameOver;
    }

    /** Show the round winner; the host arms the timer for the next round. */
    method ShowWinner()
      modifies this
      ensures State() == old(State()).(phase := ShowingWinner,
                                        scheduledRounds := old(scheduledRounds) + if isHost then 1 else 0)
    {
      phase := ShowingWinner;
      if isHost {
        scheduledRounds := scheduledRounds + 1;
      }
    }

    /** Make `w` the round winner and give its player one point (an absent score counts as 0). */
    method AwardPoint(w: PlayedCard)
      modifies this
      ensures State() == old(State()).(roundWinner := Some(w), scores := Credit(old(scores), w.playerId))
    {
      roundWinner := Some(w);
      scores := scores[w.playerId := ScoreOf(scores, w.playerId) + 1];
    }

    /** `selectWinner`: the czar, in JUDGING, broadcasts its choice and applies it. */
    method SelectWinner(winnerId: PlayerId)
      modifies this
      ensures State() == SelectWinnerStep(old(State()), winnerId)
    {
      if phase != Judging || czar != Some(localId) {
        return;
      }
      var winner := FindPlay(playedCards, winnerId);
      if winner.None? {
        return;
      }
      Send(Broadcast(CzarChoice(winnerId, winner.value.card, winner.value.playerName)));
      HandleCzarChoice(winnerId);
    }
  }
}
