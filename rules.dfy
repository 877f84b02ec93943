/**
 * The round state machine of one peer, stated on values: `State` is one
 * peer's `gameState`, and every handler's effect is a function (or, where the
 * handler shuffles, a relation) from the state before to the state after.
 * The class in module `Peer` implements these handlers by updating fields in
 * place and is proved against the functions here.
 */
module GameRules {
  import opened CahTypes
  import opened Plays
  import opened Roster
  import opened Deal

  /**
   * One peer's game state. `localId`, `playerName`, `isHost`, `connections`
   * and `gameData` are fixed once the peer is set up; `scheduledRounds` counts
   * the host's pending 3-second "start next round" timers; `outbox` is every
   * message this peer has sent, in order.
   */
  datatype State = State(
    localId: PlayerId,
    playerName: string,
    isHost: bool,
    connections: set<PlayerId>,
    gameData: GameData,
    players: seq<Player>,
    hand: seq<Card>,
    blackCard: Option<Card>,
    playedCards: seq<PlayedCard>,
    judgingCards: Option<seq<PlayedCard>>,
    czar: Option<PlayerId>,
    phase: Phase,
    scores: map<PlayerId, int>,
    roundNumber: int,
    selectedCard: Option<Card>,
    roundWinner: Option<PlayedCard>,
    gameWinner: Option<PlayedCard>,
    scheduledRounds: nat,
    outbox: seq<Outbound>)

  /**
   * A peer before any game: a host is alone on its roster, as host; a
   * joining peer knows no roster yet. No phase, no cards, no scores.
   */
  function InitialState(localId: PlayerId, playerName: string, isHost: bool, connections: set<PlayerId>,
                        gameData: GameData): (s: State)
    ensures s.phase == Unset && s.playedCards == [] && s.hand == [] && s.czar == None && s.outbox == []
    ensures isHost ==> s.players == [Player(localId, playerName, true)]
    ensures !isHost ==> s.players == []
  {
    State(localId, playerName, isHost, connections, gameData,
          if isHost then [Player(localId, playerName, true)] else [],
          [], None, [], None, None, Unset, map[], 0, None, None, None, 0, [])
  }

  /** JavaScript truthiness of an id field: present and not the empty string. */
  predicate Truthy(id: Option<PlayerId>)
  {
    id.Some? && id.value != ""
  }

  /** A player's score, an absent entry counting as 0 (`scores[id] || 0`). */
  function ScoreOf(scores: map<PlayerId, int>, id: PlayerId): int
  {
    if id in scores then scores[id] else 0
  }

  /** One more point for `id`; nobody else's score moves. */
  function Credit(scores: map<PlayerId, int>, id: PlayerId): (r: map<PlayerId, int>)
    ensures ScoreOf(r, id) == ScoreOf(scores, id) + 1
    ensures forall q :: q != id ==> ScoreOf(r, q) == ScoreOf(scores, q)
    ensures r.Keys == scores.Keys + {id}
  {
    scores[id := ScoreOf(scores, id) + 1]
  }

  /** The prompt card at position `round` of the unshuffled deck, if there is one. */
  function BlackCardAt(black: seq<Card>, round: int): (c: Option<Card>)
    ensures c.Some? <==> 0 <= round < |black|
    ensures c.Some? ==> c.value in black
  {
    if 0 <= round < |black| then Some(black[round]) else None
  }

  // ---------------------------------------------------------------------------
  // Roster changes

  /**
   * `handleJoinRequest`: on the host, append the joiner (never as host),
   * broadcast the new roster, and confirm to the joiner with the game in
   * progress, if the joiner's connection is open. A non-host ignores it.
   */
  function JoinRequestStep(s: State, id: PlayerId, name: string, peer: PlayerId): (t: State)
    ensures !s.isHost ==> t == s
    ensures s.isHost ==>
              t.players == s.players + [Player(id, name, false)] &&
              |t.outbox| == |s.outbox| + (if peer in s.connections then 2 else 1) &&
              t.outbox[..|s.outbox|] == s.outbox &&
              t.outbox[|s.outbox|] == Broadcast(PlayerList(t.players)) &&
              (peer in s.connections ==>
                 t.outbox[|s.outbox| + 1] == SendTo(peer, JoinConfirmed(t.players, s.localId, SnapshotOf(s)))) &&
              t == s.(players := t.players, outbox := t.outbox)
  {
    if !s.isHost then s
    else
      var roster := s.players + [Player(id, name, false)];
      var confirm := if peer in s.connections
                     then [SendTo(peer, JoinConfirmed(roster, s.localId, SnapshotOf(s)))]
                     else [];
      s.(players := roster, outbox := s.outbox + [Broadcast(PlayerList(roster))] + confirm)
  }

  /** The game in progress as handed to a joiner; none before the first game. */
  function SnapshotOf(s: State): (g: Option<Snapshot>)
    ensures g.Some? <==> s.phase != Unset
    ensures g.Some? ==> && g.value.phase == s.phase && g.value.blackCard == s.blackCard
                        && g.value.czar == s.czar && g.value.playedCards == s.playedCards
                        && g.value.scores == s.scores
  {
    if s.phase == Unset then None
    else Some(Snapshot(s.phase, s.blackCard, s.czar, s.playedCards, s.scores))
  }

  /**
   * `removePlayer`: for a player on the roster, drop them, tell everyone, and
   * on the host force a new round when they were the czar.
   */
  function RemoveStep(s: State, id: PlayerId): (t: State)
    ensures id !in Ids(s.players) ==> t == s
    ensures id in Ids(s.players) ==> t.players == RemoveById(s.players, id) && id !in Ids(t.players)
    ensures id in Ids(s.players) && !(s.isHost && s.czar == Some(id)) ==>
              t == s.(players := t.players,
                      outbox := s.outbox + [Broadcast(PlayerDisconnected(id, s.players[IndexOf(s.players, id)].name))])
  {
    if id !in Ids(s.players) then s
    else
      var gone := s.players[IndexOf(s.players, id)];
      var s1 := s.(players := RemoveById(s.players, id),
                   outbox := s.outbox + [Broadcast(PlayerDisconnected(id, gone.name))]);
      if s.czar == Some(id) && s.isHost then AdvanceRound(s1) else s1
  }

  // ---------------------------------------------------------------------------
  // Game start

  /**
   * What `setupNewGame` produces from a roster and a deck: both decks
   * shuffled (`whiteOrder` is the shuffled white deck), each player's hand
   * the next slice of `whiteOrder` in roster order, a first czar from the
   * roster, and round 1.
   */
  predicate DealtSetup(setup: GameSetup, whiteOrder: seq<Card>, players: seq<Player>, data: GameData)
  {
    && multiset(whiteOrder) == multiset(data.white)
    && setup.blackCards.Some? && multiset(setup.blackCards.value) == multiset(data.black)
    && setup.playerHands.Some? && setup.playerHands.value.Keys == Ids(players)
    && (forall j :: 0 <= j < |players| && LastWithId(players, j, |players|) ==>
          setup.playerHands.value[players[j].id] == HandSlice(whiteOrder, j))
    && setup.firstCzar.Some? && setup.firstCzar.value in Ids(players)
    && setup.roundNumber == 1
  }

  /** The scores after `setupNewGame` writes 0 for every player on the roster. */
  predicate ZeroedScores(before: map<PlayerId, int>, players: seq<Player>, after: map<PlayerId, int>)
  {
    && after.Keys == before.Keys + Ids(players)
    && forall id :: id in after ==> after[id] == if id in Ids(players) then 0 else before[id]
  }

  /**
   * `startGame`: a setup without hands or prompt cards is refused; otherwise
   * the peer takes its own hand (none if it has no entry), the first prompt,
   * the first czar and the round number, and enters SELECTING with no plays
   * and an empty score map.
   */
  function StartGameStep(s: State, setup: GameSetup): (t: State)
    ensures setup.playerHands.None? || setup.blackCards.None? ==> t == s
    ensures setup.playerHands.Some? && setup.blackCards.Some? ==>
              && t.phase == Selecting && t.playedCards == [] && t.czar == setup.firstCzar
              && t.roundNumber == setup.roundNumber
              && (forall id :: ScoreOf(t.scores, id) == 0)
              && (s.localId in setup.playerHands.value ==> t.hand == setup.playerHands.value[s.localId])
              && (s.localId !in setup.playerHands.value ==> t.hand == [])
              && (|setup.blackCards.value| > 0 <==> t.blackCard.Some?)
              && (t.blackCard.Some? ==> t.blackCard.value == setup.blackCards.value[0])
              && t == s.(hand := t.hand, blackCard := t.blackCard, czar := t.czar, phase := Selecting,
                         roundNumber := t.roundNumber, playedCards := [], scores := map[])
  {
    if setup.playerHands.None? || setup.blackCards.None? then s
    else
      var hands := setup.playerHands.value;
      var blacks := setup.blackCards.value;
      s.(hand := if s.localId in hands then hands[s.localId] else [],
         blackCard := if |blacks| > 0 then Some(blacks[0]) else None,
         czar := setup.firstCzar,
         phase := Selecting,
         roundNumber := setup.roundNumber,
         playedCards := [],
         scores := map[])
  }

  // ---------------------------------------------------------------------------
  // Card submission

  /**
   * `playCard` on the submitting peer: outside SELECTING, or as the czar,
   * nothing happens; otherwise the card leaves the hand, becomes the selected
   * card and is broadcast. The peer's own list of plays is not touched.
   */
  function PlayCardStep(s: State, index: nat): (t: State)
    requires index < |s.hand|
    ensures s.phase != Selecting || s.czar == Some(s.localId) ==> t == s
    ensures s.phase == Selecting && s.czar != Some(s.localId) ==>
              && |t.hand| == |s.hand| - 1
              && multiset(t.hand) + multiset{s.hand[index]} == multiset(s.hand)
              && t.selectedCard == Some(s.hand[index])
              && t.outbox == s.outbox + [Broadcast(PlayedCardMessage(PlayedCard(s.localId, s.playerName, s.hand[index])))]
              && t.playedCards == s.playedCards
              && t == s.(hand := t.hand, selectedCard := t.selectedCard, outbox := t.outbox)
  {
    if s.phase != Selecting || s.czar == Some(s.localId) then s
    else
      var card := s.hand[index];
      assert s.hand == s.hand[..index] + [card] + s.hand[index + 1..];
      s.(hand := s.hand[..index] + s.hand[index + 1..],
         selectedCard := Some(card),
         outbox := s.outbox + [Broadcast(PlayedCardMessage(PlayedCard(s.localId, s.playerName, card)))])
  }

  /**
   * `playCard` as the protocol intends it: on the host the own play also
   * goes through `handlePlayedCard`, as every other player's play does.
   */
  predicate PlayOwnCardOutcome(s: State, index: nat, t: State)
    requires index < |s.hand|
  {
    var s1 := PlayCardStep(s, index);
    if s.isHost && s.phase == Selecting && s.czar != Some(s.localId)
    then PlayedCardOutcome(s1, PlayedCard(s.localId, s.playerName, s.hand[index]), t)
    else t == s1
  }

  /**
   * `startJudging` on the host: the plays are replaced by a shuffle of
   * themselves, kept as the judging order too, broadcast, and the phase is
   * JUDGING. `t.playedCards` is the shuffle the host drew.
   */
  predicate JudgingOutcome(s: State, t: State)
  {
    && multiset(t.playedCards) == multiset(s.playedCards)
    && t == s.(phase := Judging,
               playedCards := t.playedCards,
               judgingCards := Some(t.playedCards),
               outbox := s.outbox + [Broadcast(JudgingStart(t.playedCards, s.blackCard))])
  }

  /**
   * `handlePlayedCard`: outside SELECTING the play is ignored; otherwise it
   * replaces the player's earlier play (no check that the player is not the
   * czar). The host broadcasts the plays and starts judging as soon as there
   * are `players.length - 1` of them; a non-host czar switches its own view
   * to JUDGING at the same count.
   */
  predicate PlayedCardOutcome(s: State, p: PlayedCard, t: State)
  {
    if s.phase != Selecting then t == s
    else
      var plays := Submit(s.playedCards, p);
      var complete := |plays| == |s.players| - 1;
      if s.isHost then
        var s1 := s.(playedCards := plays, outbox := s.outbox + [Broadcast(CardsUpdate(plays, Selecting))]);
        if complete then JudgingOutcome(s1, t) else t == s1
      else
        t == s.(playedCards := plays,
                phase := if s.czar == Some(s.localId) && complete then Judging else Selecting)
  }

  /** `handleJudgingStart`: take the host's judging order as both lists and enter JUDGING. */
  function JudgingStartStep(s: State, cards: seq<PlayedCard>): (t: State)
    ensures t.phase == Judging && t.playedCards == cards && t.judgingCards == Some(cards)
    ensures t == s.(phase := Judging, playedCards := cards, judgingCards := Some(cards))
  {
    s.(judgingCards := Some(cards), playedCards := cards, phase := Judging)
  }

  // ---------------------------------------------------------------------------
  // Winner choice and scoring

  /** The plays a czar choice is checked against: the judging order once there is one. */
  function CardsToCheck(s: State): seq<PlayedCard>
  {
    match s.judgingCards
    case Some(cards) => cards
    case None => s.playedCards
  }

  /**
   * `handleCzarChoice`: a winner with no play is ignored. Otherwise the
   * winner's first play becomes the round winner, the winner scores one
   * point (absent counts as 0) and nobody else's score moves; at
   * `PointsToWin` the game is over, else the winner is shown and the host
   * schedules the next round. No phase is checked.
   */
  function CzarChoiceStep(s: State, winnerId: PlayerId): (t: State)
    ensures winnerId !in Submitters(CardsToCheck(s)) ==> t == s
    ensures winnerId in Submitters(CardsToCheck(s)) ==>
              && t.roundWinner == FindPlay(CardsToCheck(s), winnerId)
              && ScoreOf(t.scores, winnerId) == ScoreOf(s.scores, winnerId) + 1
              && (forall q :: q != winnerId ==> ScoreOf(t.scores, q) == ScoreOf(s.scores, q))
              && t.phase == (if ScoreOf(t.scores, winnerId) >= PointsToWin then GameOver else ShowingWinner)
              && t.gameWinner == (if t.phase == GameOver then t.roundWinner else s.gameWinner)
              && t.scheduledRounds == s.scheduledRounds + (if t.phase == ShowingWinner && s.isHost then 1 else 0)
              && t == s.(roundWinner := t.roundWinner, scores := t.scores, phase := t.phase,
                         gameWinner := t.gameWinner, scheduledRounds := t.scheduledRounds)
  {
    match FindPlay(CardsToCheck(s), winnerId)
    case None => s
    case Some(winner) =>
      var scores := Credit(s.scores, winner.playerId);
      if scores[winner.playerId] >= PointsToWin then
        s.(roundWinner := Some(winner), scores := scores, gameWinner := Some(winner), phase := GameOver)
      else
        s.(roundWinner := Some(winner), scores := scores, phase := ShowingWinner,
           scheduledRounds := if s.isHost then s.scheduledRounds + 1 else s.scheduledRounds)
  }

  /**
   * `selectWinner` on the czar's own peer: only in JUDGING and only as the
   * czar; the winner must have a play among `playedCards`. The choice is
   * broadcast and then applied locally.
   */
  function SelectWinnerStep(s: State, winnerId: PlayerId): (t: State)
    ensures s.phase != Judging || s.czar != Some(s.localId) || winnerId !in Submitters(s.playedCards) ==> t == s
    ensures s.phase == Judging && s.czar == Some(s.localId) && winnerId in Submitters(s.playedCards) ==>
              var w := FindPlay(s.playedCards, winnerId).value;
              t == CzarChoiceStep(s.(outbox := s.outbox + [Broadcast(CzarChoice(winnerId, w.card, w.playerName))]), winnerId)
  {
    if s.phase != Judging || s.czar != Some(s.localId) then s
    else
      match FindPlay(s.playedCards, winnerId)
      case None => s
      case Some(w) =>
        CzarChoiceStep(s.(outbox := s.outbox + [Broadcast(CzarChoice(winnerId, w.card, w.playerName))]), winnerId)
  }

  // ---------------------------------------------------------------------------
  // Next round

  /**
   * The setup `startNewRound` computes on a non-empty roster: the player
   * after the current czar, the prompt card at `roundNumber` of the
   * unshuffled deck, the next round number, and one white card for every
   * player but the next czar.
   */
  function NextRoundSetup(s: State): (r: RoundSetup)
    requires |s.players| > 0
    ensures r.czar.Some? && r.czar.value in Ids(s.players)
    ensures r.roundNumber == s.roundNumber + 1
    ensures r.blackCard == BlackCardAt(s.gameData.black, s.roundNumber)
    ensures r.czar.value !in r.newCards && r.newCards.Keys <= Ids(s.players)
    ensures forall id :: id in r.newCards ==> r.newCards[id] in s.gameData.white
  {
    var next := s.players[NextCzarIndex(s.players, s.czar)].id;
    assert s.players[..|s.players|] == s.players;
    RoundSetup(BlackCardAt(s.gameData.black, s.roundNumber),
               Some(next),
               s.roundNumber + 1,
               NewCardsFor(s.players, s.gameData.white, s.roundNumber * |s.players|, next, |s.players|))
  }

  /**
   * `handleNewRound`: a setup without a prompt card or a czar is refused.
   * Otherwise the new prompt, czar and round number are taken; only the
   * peer that was czar clears its plays and judging order; the selection and
   * the round winner are cleared; the phase is SELECTING; and a card dealt
   * to this peer is appended to the hand.
   */
  function ApplyRoundSetup(s: State, setup: RoundSetup): (t: State)
    ensures !(setup.blackCard.Some? && Truthy(setup.czar)) ==> t == s
    ensures setup.blackCard.Some? && Truthy(setup.czar) ==>
              && t.phase == Selecting && t.selectedCard == None && t.roundWinner == None
              && t.blackCard == setup.blackCard && t.czar == setup.czar && t.roundNumber == setup.roundNumber
              && (s.czar == Some(s.localId) ==> t.playedCards == [] && t.judgingCards == None)
              && (s.czar != Some(s.localId) ==> t.playedCards == s.playedCards && t.judgingCards == s.judgingCards)
              && |t.hand| == |s.hand| + (if s.localId in setup.newCards then 1 else 0)
              && t.hand[..|s.hand|] == s.hand
              && (s.localId in setup.newCards ==> t.hand[|s.hand|] == setup.newCards[s.localId])
              && t == s.(blackCard := t.blackCard, czar := t.czar, roundNumber := t.roundNumber,
                         playedCards := t.playedCards, judgingCards := t.judgingCards,
                         selectedCard := None, roundWinner := None, phase := Selecting, hand := t.hand)
  {
    if !(setup.blackCard.Some? && Truthy(setup.czar)) then s
    else
      var wasCzar := s.czar == Some(s.localId);
      var hand := if s.localId in setup.newCards then s.hand + [setup.newCards[s.localId]] else s.hand;
      assert hand[..|s.hand|] == s.hand;
      s.(blackCard := setup.blackCard,
         czar := setup.czar,
         roundNumber := setup.roundNumber,
         playedCards := if wasCzar then [] else s.playedCards,
         judgingCards := if wasCzar then None else s.judgingCards,
         selectedCard := None,
         roundWinner := None,
         phase := Selecting,
         hand := hand)
  }

  /**
   * `startNewRound` followed by the host's own `handleNewRound`. A non-host
   * does nothing; on an empty roster the czar lookup throws before anything
   * changes. Otherwise the setup is broadcast and applied.
   */
  function AdvanceRound(s: State): (t: State)
    ensures !s.isHost || |s.players| == 0 ==> t == s
    ensures t.players == s.players && t.scores == s.scores && t.isHost == s.isHost
    ensures t.localId == s.localId && t.gameData == s.gameData
  {
    if !s.isHost || |s.players| == 0 then s
    else
      var setup := NextRoundSetup(s);
      ApplyRoundSetup(s.(outbox := s.outbox + [Broadcast(NewRound(setup))]), setup)
  }

  /**
   * A round advance on the host broadcasts the new setup. Peers accept it
   * when it has a prompt card and a non-empty czar id; the host then has the
   * player after the old czar as czar, the next round number and SELECTING.
   * Otherwise only the broadcast happened.
   */
  lemma AdvanceRoundEffect(s: State)
    requires s.isHost && |s.players| > 0
    ensures var setup := NextRoundSetup(s);
            var t := AdvanceRound(s);
            && t.outbox == s.outbox + [Broadcast(NewRound(setup))]
            && (setup.blackCard.Some? && Truthy(setup.czar) ==>
                  t.czar == Some(s.players[NextCzarIndex(s.players, s.czar)].id) &&
                  t.roundNumber == s.roundNumber + 1 && t.phase == Selecting)
            && (!(setup.blackCard.Some? && Truthy(setup.czar)) ==> t == s.(outbox := t.outbox))
  {
  }

  /**
   * `handleNewRound` as the round protocol intends it: every peer, the host
   * included, starts the new round with no plays and no judging order, not
   * only the peer that was czar. Otherwise the same as `ApplyRoundSetup`.
   */
  function ApplyRoundSetupClearing(s: State, setup: RoundSetup): (t: State)
    ensures t == ApplyRoundSetup(s, setup).(playedCards := t.playedCards, judgingCards := t.judgingCards)
    ensures setup.blackCard.Some? && Truthy(setup.czar) ==> t.playedCards == [] && t.judgingCards == None
    ensures !(setup.blackCard.Some? && Truthy(setup.czar)) ==> t == s
  {
    var t := ApplyRoundSetup(s, setup);
    if setup.blackCard.Some? && Truthy(setup.czar) then t.(playedCards := [], judgingCards := None) else t
  }

  /** `startNewRound` on the host with the clearing round setup. */
  function AdvanceRoundClearing(s: State): (t: State)
    ensures t == AdvanceRound(s).(playedCards := t.playedCards, judgingCards := t.judgingCards)
    ensures s.isHost && |s.players| > 0 && NextRoundSetup(s).blackCard.Some? && Truthy(NextRoundSetup(s).czar) ==>
              t.playedCards == [] && t.judgingCards == None
  {
    if !s.isHost || |s.players| == 0 then s
    else
      var setup := NextRoundSetup(s);
      ApplyRoundSetupClearing(s.(outbox := s.outbox + [Broadcast(NewRound(setup))]), setup)
  }

  /**
   * The 3-second timer `handleCzarChoice` set on the host fires: one pending
   * timer is used up and the next round starts. With no timer pending
   * nothing happens.
   */
  function TimerStep(s: State): (t: State)
    ensures s.scheduledRounds == 0 ==> t == s
    ensures s.scheduledRounds > 0 ==> t == AdvanceRound(s.(scheduledRounds := s.scheduledRounds - 1))
  {
    if s.scheduledRounds == 0 then s
    else AdvanceRound(s.(scheduledRounds := s.scheduledRounds - 1))
  }

  // ---------------------------------------------------------------------------
  // Dispatch

  /**
   * `join_confirmed`: take the host's roster and, when a game is in
   * progress, its phase, prompt, czar, plays and scores.
   */
  function JoinConfirmedStep(s: State, players: seq<Player>, game: Option<Snapshot>): (t: State)
    ensures t.players == players
    ensures game.None? ==> t == s.(players := players)
    ensures game.Some? ==>
              t == s.(players := players, phase := game.value.phase, blackCard := game.value.blackCard,
                      czar := game.value.czar, playedCards := game.value.playedCards, scores := game.value.scores)
  {
    match game
    case None => s.(players := players)
    case Some(g) =>
      s.(players := players, phase := g.phase, blackCard := g.blackCard, czar := g.czar,
         playedCards := g.playedCards, scores := g.scores)
  }

  /**
   * `handleGameMessage`: what one inbound message from `sender` does to the
   * peer, by message type. `error`, `player_disconnected` and unknown types
   * only touch the user interface.
   */
  predicate MessageOutcome(s: State, m: Message, sender: PlayerId, t: State)
  {
    match m
    case ErrorMessage(_) => t == s
    case JoinRequest(id, name) => t == JoinRequestStep(s, id, name, sender)
    case JoinConfirmed(players, _, game) => t == JoinConfirmedStep(s, players, game)
    case PlayerList(players) => t == s.(players := players)
    case StartGame(setup) => t == StartGameStep(s, setup)
    case PlayedCardMessage(p) => PlayedCardOutcome(s, p, t)
    case JudgingStart(cards, _) => t == JudgingStartStep(s, cards)
    case CzarChoice(winnerId, _, _) => t == CzarChoiceStep(s, winnerId)
    case NewRound(setup) => t == ApplyRoundSetup(s, setup)
    case PlayerDisconnected(_, _) => t == s
    case CardsUpdate(plays, phase) => t == s.(playedCards := plays, phase := phase)
    case Unknown(_) => t == s
  }
}
