/**
 * Values exchanged by the peers of the card game: cards, players, played
 * cards, the round phase, the setups the host sends, and the wire messages.
 */
module CahTypes {

  datatype Option<+T> = None | Some(value: T)

  /** Minimum roster size before the host may start a game. */
  const MinPlayers: nat := 2
  /** Number of response cards dealt to each player at the start of a game. */
  const CardsPerHand: nat := 10
  /** A player whose score reaches this value wins the game. */
  const PointsToWin: nat := 5

  /** A peer identifier; the host's identifier doubles as the room code. */
  type PlayerId = string

  /** A prompt ("black") or response ("white") card. */
  datatype Card = Card(text: string)

  datatype Player = Player(id: PlayerId, name: string, isHost: bool)

  /** One submission of the round: who played which response card. */
  datatype PlayedCard = PlayedCard(playerId: PlayerId, playerName: string, card: Card)

  /** The phase of the round; `Unset` is the `null` phase before any game starts. */
  datatype Phase = Unset | Selecting | Judging | ShowingWinner | GameOver

  /** The card deck as loaded: all prompt cards and all response cards. */
  datatype GameData = GameData(black: seq<Card>, white: seq<Card>)

  /**
   * The payload of `start_game`. A missing `blackCards` or `playerHands`
   * field is `None`; `firstCzar` is `None` when it is absent.
   */
  datatype GameSetup = GameSetup(
    blackCards: Option<seq<Card>>,
    playerHands: Option<map<PlayerId, seq<Card>>>,
    firstCzar: Option<PlayerId>,
    roundNumber: int)

  /**
   * The payload of `new_round`. A black card that could not be read (past the
   * end of the deck) is `None`; an absent `newCards` field is the empty map.
   */
  datatype RoundSetup = RoundSetup(
    blackCard: Option<Card>,
    czar: Option<PlayerId>,
    roundNumber: int,
    newCards: map<PlayerId, Card>)

  /** The game state a host hands to a player who joins mid-game. */
  datatype Snapshot = Snapshot(
    phase: Phase,
    blackCard: Option<Card>,
    czar: Option<PlayerId>,
    playedCards: seq<PlayedCard>,
    scores: map<PlayerId, int>)

  /** One variant per message `type` string of the wire protocol. */
  datatype Message =
    | ErrorMessage(text: string)                                            // "error"
    | JoinRequest(id: PlayerId, name: string)                               // "join_request"
    | JoinConfirmed(players: seq<Player>, hostId: PlayerId, game: Option<Snapshot>) // "join_confirmed"
    | PlayerList(players: seq<Player>)                                      // "player_list"
    | StartGame(setup: GameSetup)                                           // "start_game"
    | PlayedCardMessage(play: PlayedCard)                                   // "played_card"
    | JudgingStart(cards: seq<PlayedCard>, blackCard: Option<Card>)         // "judging_start"
    | CzarChoice(winnerId: PlayerId, card: Card, playerName: string)        // "czar_choice"
    | NewRound(round: RoundSetup)                                           // "new_round"
    | PlayerDisconnected(playerId: PlayerId, playerName: string)            // "player_disconnected"
    | CardsUpdate(playedCards: seq<PlayedCard>, phase: Phase)               // "cards_update"
    | Unknown(tag: string)                                                  // any other type string

  /** A message leaving this peer: to every open connection, or to one peer. */
  datatype Outbound = Broadcast(message: Message) | SendTo(peer: PlayerId, message: Message)
}
