/**
 * The two loops that hand out response cards: the opening deal of
 * `setupNewGame` (a `splice(0, CardsPerHand)` per player off the shuffled
 * deck) and the one-card-each top-up of `startNewRound`.
 */
module Deal {
  import opened CahTypes
  import opened Roster

  function Min(a: int, b: int): int { if a <= b then a else b }

  /**
   * The hand the `j`-th splice takes off a deck that starts as `deck`: the
   * next `CardsPerHand` cards, or what is left of them.
   */
  function HandSlice(deck: seq<Card>, j: nat): (h: seq<Card>)
    ensures |h| <= CardsPerHand
    ensures |deck| >= CardsPerHand * (j + 1) ==> |h| == CardsPerHand
  {
    deck[Min(CardsPerHand * j, |deck|)..Min(CardsPerHand * (j + 1), |deck|)]
  }

  /** The first `n` hands, one after the other. */
  function Dealt(deck: seq<Card>, n: nat): seq<Card>
  {
    if n == 0 then [] else Dealt(deck, n - 1) + HandSlice(deck, n - 1)
  }

  /**
   * The hands of the first `n` players tile the front of the deck in order:
   * no card of the deck goes to two players and none is skipped.
   */
  lemma {:induction false} DealtIsPrefix(deck: seq<Card>, n: nat)
    ensures Dealt(deck, n) == deck[..Min(CardsPerHand * n, |deck|)]
  {
    if n > 0 {
      DealtIsPrefix(deck, n - 1);
      var a := Min(CardsPerHand * (n - 1), |deck|);
      var b := Min(CardsPerHand * n, |deck|);
      assert deck[..a] + deck[a..b] == deck[..b];
    }
  }

  /** No player with this id comes after index `j` among the first `i`. */
  predicate LastWithId(players: seq<Player>, j: nat, i: nat)
    requires j < i <= |players|
  {
    forall k :: j < k < i ==> players[k].id != players[j].id
  }

  /** `hands` holds, for the first `i` players, the hand of each id's last deal. */
  predicate HandsDealt(players: seq<Player>, deck: seq<Card>, hands: map<PlayerId, seq<Card>>, i: nat)
    requires i <= |players|
  {
    && hands.Keys == Ids(players[..i])
    && forall j :: 0 <= j < i && LastWithId(players, j, i) ==> hands[players[j].id] == HandSlice(deck, j)
  }

  /** `newScores` is `scores` with the first `i` players' scores set to 0. */
  predicate ScoresZeroed(players: seq<Player>, scores: map<PlayerId, int>, newScores: map<PlayerId, int>, i: nat)
    requires i <= |players|
  {
    && newScores.Keys == scores.Keys + Ids(players[..i])
    && forall id :: id in newScores ==> newScores[id] == if id in Ids(players[..i]) then 0 else scores[id]
  }

  /** Dealing the next player their slice keeps `HandsDealt`, one player further. */
  lemma HandsDealtStep(players: seq<Player>, deck: seq<Card>, hands: map<PlayerId, seq<Card>>, i: nat)
    requires i < |players| && HandsDealt(players, deck, hands, i)
    ensures HandsDealt(players, deck, hands[players[i].id := HandSlice(deck, i)], i + 1)
  {
    var h := hands[players[i].id := HandSlice(deck, i)];
    IdsOfLongerPrefix(players, i + 1);
    assert h.Keys == hands.Keys + {players[i].id};
    LastDealWins(players, deck, hands, i);
  }

  /** After the next deal, each id's last deal among one player more is still the one it holds. */
  lemma LastDealWins(players: seq<Player>, deck: seq<Card>, hands: map<PlayerId, seq<Card>>, i: nat)
    requires i < |players| && HandsDealt(players, deck, hands, i)
    ensures forall j :: 0 <= j < i + 1 && LastWithId(players, j, i + 1) ==>
              hands[players[i].id := HandSlice(deck, i)][players[j].id] == HandSlice(deck, j)
  {
    forall j | 0 <= j < i + 1 && LastWithId(players, j, i + 1)
      ensures hands[players[i].id := HandSlice(deck, i)][players[j].id] == HandSlice(deck, j)
    {
      if j < i {
        assert players[i].id != players[j].id;
        assert LastWithId(players, j, i);
      }
    }
  }

  /** Zeroing the next player's score keeps `ScoresZeroed`, one player further. */
  lemma ScoresZeroedStep(players: seq<Player>, scores: map<PlayerId, int>, newScores: map<PlayerId, int>, i: nat)
    requires i < |players| && ScoresZeroed(players, scores, newScores, i)
    ensures ScoresZeroed(players, scores, newScores[players[i].id := 0], i + 1)
  {
    IdsOfLongerPrefix(players, i + 1);
  }

  /**
   * The opening deal: every player, in roster order, takes the next
   * `CardsPerHand` cards (fewer once the deck runs out) and has the score 0
   * written. A player whose id comes again later in the roster ends up with
   * the later hand, as with repeated assignment to `playerHands[id]`.
   */
  method DealHands(players: seq<Player>, deck: seq<Card>, scores: map<PlayerId, int>)
    returns (hands: map<PlayerId, seq<Card>>, rest: seq<Card>, newScores: map<PlayerId, int>)
    ensures hands.Keys == Ids(players)
    ensures forall j :: 0 <= j < |players| && LastWithId(players, j, |players|) ==>
              hands[players[j].id] == HandSlice(deck, j)
    ensures rest == deck[Min(CardsPerHand * |players|, |deck|)..]
    ensures newScores.Keys == scores.Keys + Ids(players)
    ensures forall id :: id in newScores ==> newScores[id] == if id in Ids(players) then 0 else scores[id]
  {
    hands, rest, newScores := map[], deck, scores;
    var i := 0;
    while i < |players|
      invariant 0 <= i <= |players|
      invariant rest == deck[Min(CardsPerHand * i, |deck|)..]
      invariant HandsDealt(players, deck, hands, i)
      invariant ScoresZeroed(players, scores, newScores, i)
    {
      var p := players[i];
      var take := Min(CardsPerHand, |rest|);
      assert rest[..take] == HandSlice(deck, i);
      HandsDealtStep(players, deck, hands, i);
      ScoresZeroedStep(players, scores, newScores, i);
      hands := hands[p.id := rest[..take]];
      rest := rest[take..];
      newScores := newScores[p.id := 0];
      i := i + 1;
    }
    assert players[..i] == players;
  }

  /**
   * The cards `startNewRound` hands out for the first `k` players: each
   * player other than the next czar gets the white card at position
   * `base + (number of players served so far)`, when the deck has one there.
   * `base` is `roundNumber * players.length`.
   */
  function NewCardsFor(players: seq<Player>, white: seq<Card>, base: int, nextCzar: PlayerId, k: nat)
    : (m: map<PlayerId, Card>)
    requires k <= |players|
    ensures |m| <= k
    ensures m.Keys <= Ids(players[..k]) - {nextCzar}
    ensures forall id :: id in m ==> m[id] in white
  {
    if k == 0 then map[]
    else
      var m := NewCardsFor(players, white, base, nextCzar, k - 1);
      var p := players[k - 1];
      var index := base + |m|;
      IdsOfLongerPrefix(players, k);
      if p.id != nextCzar && 0 <= index < |white| then m[p.id := white[index]] else m
  }

  /** One more player served: the card at the next free position, unless the next czar or past the deck. */
  lemma NewCardsForStep(players: seq<Player>, white: seq<Card>, base: int, nextCzar: PlayerId, i: nat,
                        m: map<PlayerId, Card>)
    requires i < |players| && m == NewCardsFor(players, white, base, nextCzar, i)
    ensures NewCardsFor(players, white, base, nextCzar, i + 1) ==
              if players[i].id != nextCzar && 0 <= base + |m| < |white|
              then m[players[i].id := white[base + |m|]] else m
  {
  }

  /**
   * The loop of `startNewRound` that fills `newCards`: the next czar gets
   * nothing, everyone else one card while the white deck lasts.
   */
  method DealNewCards(players: seq<Player>, white: seq<Card>, roundNumber: int, nextCzar: PlayerId)
    returns (newCards: map<PlayerId, Card>)
    ensures newCards == NewCardsFor(players, white, roundNumber * |players|, nextCzar, |players|)
    ensures nextCzar !in newCards && newCards.Keys <= Ids(players)
  {
    var base := roundNumber * |players|;
    newCards := map[];
    var i := 0;
    while i < |players|
      invariant 0 <= i <= |players|
      invariant newCards == NewCardsFor(players, white, base, nextCzar, i)
    {
      var p := players[i];
      ghost var next := NewCardsFor(players, white, base, nextCzar, i + 1);
      NewCardsForStep(players, white, base, nextCzar, i, newCards);
      if p.id != nextCzar {
        var index := base + |newCards|;
        if 0 <= index < |white| {
          newCards := newCards[p.id := white[index]];
        }
      }
      assert newCards == next;
      i := i + 1;
    }
    assert players[..i] == players;
  }

  /**
   * While the white deck has a card at every position the round can ask for,
   * every player other than the next czar is dealt one.
   */
  lemma {:induction false} NewCardsCoverRoster(players: seq<Player>, white: seq<Card>, base: int,
                                                nextCzar: PlayerId, k: nat)
    requires k <= |players| && 0 <= base && base + |players| <= |white|
    ensures NewCardsFor(players, white, base, nextCzar, k).Keys == Ids(players[..k]) - {nextCzar}
  {
    if k > 0 {
      NewCardsCoverRoster(players, white, base, nextCzar, k - 1);
      var m := NewCardsFor(players, white, base, nextCzar, k - 1);
      var p := players[k - 1];
      assert 0 <= base + |m| < |white|;
      if p.id != nextCzar {
        assert NewCardsFor(players, white, base, nextCzar, k).Keys == m.Keys + {p.id};
      }
      IdsOfLongerPrefix(players, k);
    }
  }
}
