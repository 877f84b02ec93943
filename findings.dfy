/**
 * Two places where the round handlers do not do what the round protocol
 * needs, each shown on a host with two other players, once as the
 * handlers are written and once as corrected.
 *
 * 1. `playCard` only broadcasts the play; on the host no peer connection
 *    sends it back, so the host's own play never reaches its list of plays.
 * 2. `handleNewRound` clears the plays only on the peer that was czar, so
 *    the host, when it was not czar, enters the new round holding the last
 *    round's plays.
 */
module Findings {
  import opened CahTypes
  import opened Plays
  import opened Roster
  import opened GameRules
  import opened RoundProperties

  /**
   * As written: on a host of three players that is not czar, the host plays
   * its card, then the other player who is not czar plays. Everyone who
   * should play has, and the host has broadcast its own play, yet the host
   * holds one play of the two it waits for and stays in SELECTING.
   */
  lemma HostPlayStallsRound(s: State, index: nat, p: PlayedCard, t: State)
    requires s.isHost && s.phase == Selecting && s.czar != Some(s.localId) && index < |s.hand|
    requires s.playedCards == [] && |s.players| == 3 && p.playerId != s.localId
    requires PlayedCardOutcome(PlayCardStep(s, index), p, t)
    ensures Broadcast(PlayedCardMessage(PlayedCard(s.localId, s.playerName, s.hand[index]))) in t.outbox
    ensures t.playedCards == [p] && s.localId !in Submitters(t.playedCards)
    ensures t.phase == Selecting
  {
    var s1 := PlayCardStep(s, index);
    assert s1.playedCards == [] && s1.phase == Selecting && s1.isHost && |s1.players| == 3;
    assert Submit([], p) == [p];
    var mine := Broadcast(PlayedCardMessage(PlayedCard(s.localId, s.playerName, s.hand[index])));
    assert s1.outbox[|s1.outbox| - 1] == mine;
    assert t.outbox == s1.outbox + [Broadcast(CardsUpdate([p], Selecting))];
    assert t.outbox[|s1.outbox| - 1] == mine;
  }

  /**
   * Corrected: a host that is not czar, holding plays without duplicate
   * submitters, counts its own play as it counts anyone's. The play is recorded, the host becomes a submitter, and
   * judging starts exactly when that makes one play per player but the czar.
   */
  lemma OwnPlayCounts(s: State, index: nat, u: State)
    requires s.isHost && s.phase == Selecting && s.czar != Some(s.localId) && index < |s.hand|
    requires UniqueSubmitters(s.playedCards) && PlayOwnCardOutcome(s, index, u)
    ensures UniqueSubmitters(u.playedCards)
    ensures u.players == s.players && u.czar == s.czar && u.isHost && u.localId == s.localId
    ensures PlayedCard(s.localId, s.playerName, s.hand[index]) in u.playedCards
    ensures Submitters(u.playedCards) == Submitters(s.playedCards) + {s.localId}
    ensures u.phase == Judging <==> |Submitters(s.playedCards) + {s.localId}| == |s.players| - 1
    ensures u.phase != Judging ==> u.phase == Selecting
  {
    var s1 := PlayCardStep(s, index);
    var mine := PlayedCard(s.localId, s.playerName, s.hand[index]);
    assert s1.playedCards == s.playedCards && s1.phase == Selecting && s1.isHost;
    assert s1.players == s.players && s1.czar == s.czar && s1.localId == s.localId;
    HostJudgesWhenAllPlayed(s1, mine, u);
    PlayedCardPlays(s1, mine, u);
  }

  /**
   * As written: a host of three players that was not czar keeps the plays
   * of the round just judged into the next one. When those were the plays
   * of the host and of the player who becomes czar, the host's first play
   * of the new round already makes two plays and starts judging, with the
   * new czar's play from the last round up for judging.
   */
  lemma StalePlaysJudgedEarly(s: State, q: PlayedCard, r: PlayedCard, index: nat, u: State)
    requires s.isHost && |s.players| == 3 && s.czar != Some(s.localId)
    requires NextRoundSetup(s).blackCard.Some? && Truthy(NextRoundSetup(s).czar)
    requires NextRoundSetup(s).czar == Some(q.playerId) && q.playerId != s.localId && r.playerId == s.localId
    requires s.playedCards == [q, r]
    requires index < |AdvanceRound(s).hand| && PlayOwnCardOutcome(AdvanceRound(s), index, u)
    ensures AdvanceRound(s).playedCards == [q, r]
    ensures u.phase == Judging && u.czar == Some(q.playerId) && q in u.playedCards
  {
    StaleRoundStart(s, q, r);
    var t := AdvanceRound(s);
    var s1 := PlayCardStep(t, index);
    var mine := PlayedCard(t.localId, t.playerName, t.hand[index]);
    assert s1.playedCards == [q, r] && s1.phase == Selecting && s1.isHost && |s1.players| == 3;
    SubmitOverOwnPlay(q, r, mine);
    PlayedCardPlays(s1, mine, u);
    PlayOfMultiset(q, u.playedCards, [q, mine]);
  }

  /** The host's side of the round advance above: the plays stay, the czar moves to `q`'s player. */
  lemma StaleRoundStart(s: State, q: PlayedCard, r: PlayedCard)
    requires s.isHost && |s.players| == 3 && s.czar != Some(s.localId)
    requires NextRoundSetup(s).blackCard.Some? && Truthy(NextRoundSetup(s).czar)
    requires NextRoundSetup(s).czar == Some(q.playerId)
    requires s.playedCards == [q, r]
    ensures var t := AdvanceRound(s);
            && t.playedCards == [q, r] && t.phase == Selecting && t.czar == Some(q.playerId)
            && t.isHost && t.localId == s.localId && |t.players| == 3
  {
    var setup := NextRoundSetup(s);
    var sent := s.(outbox := s.outbox + [Broadcast(NewRound(setup))]);
    AdvanceRoundEffect(s);
    assert AdvanceRound(s) == ApplyRoundSetup(sent, setup);
  }

  /** A new play replacing the own play `r` in `[q, r]` leaves `q` first. */
  lemma SubmitOverOwnPlay(q: PlayedCard, r: PlayedCard, mine: PlayedCard)
    requires r.playerId == mine.playerId && q.playerId != mine.playerId
    ensures Submit([q, r], mine) == [q, mine]
  {
    assert WithoutPlayer([r], mine.playerId) == [];
    assert WithoutPlayer([q, r], mine.playerId) == [q] + WithoutPlayer([r], mine.playerId);
  }

  /** A play in a list is in any reordering of it. */
  lemma PlayOfMultiset(x: PlayedCard, a: seq<PlayedCard>, b: seq<PlayedCard>)
    requires multiset(a) == multiset(b) && x in b
    ensures x in a
  {
    assert x in multiset(b);
  }

  /**
   * Corrected: with the plays cleared at the new round, the first play the
   * host accepts in a new round is the only play it holds, so the count of
   * plays it judges by is this round's alone.
   */
  lemma ClearedRoundStartsEmpty(s: State, p: PlayedCard, t: State)
    requires s.isHost && |s.players| > 0
    requires NextRoundSetup(s).blackCard.Some? && Truthy(NextRoundSetup(s).czar)
    requires PlayedCardOutcome(AdvanceRoundClearing(s), p, t)
    ensures multiset(t.playedCards) == multiset{p}
  {
    var a := AdvanceRoundClearing(s);
    AdvanceRoundEffect(s);
    assert a.phase == Selecting && a.playedCards == [];
    assert Submit([], p) == [p];
    PlayedCardPlays(a, p, t);
  }
}
