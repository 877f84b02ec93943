/**
 * Properties of the round state machine that relate several handlers, or
 * one handler across many steps: what a submission does to the plays, when
 * the host starts judging, how scores move, how the czar rotates over
 * rounds, and what the opening deal hands out.
 */
module RoundProperties {
  import opened CahTypes
  import opened Plays
  import opened Roster
  import opened Deal
  import opened GameRules

  /**
   * A joiner whose connection is open is caught up: handling the host's
   * confirmation gives it the host's new roster and, once a game has
   * started, the host's phase, prompt, czar, plays and scores. Before the
   * first game it keeps its own.
   */
  lemma JoinerCatchesUp(host: State, id: PlayerId, name: string, peer: PlayerId, joiner: State, t: State)
    requires host.isHost && peer in host.connections
    requires var sent := JoinRequestStep(host, id, name, peer).outbox[|host.outbox| + 1];
             sent.SendTo? && MessageOutcome(joiner, sent.message, host.localId, t)
    ensures t.players == host.players + [Player(id, name, false)]
    ensures host.phase != Unset ==>
              && t.phase == host.phase && t.blackCard == host.blackCard && t.czar == host.czar
              && t.playedCards == host.playedCards && t.scores == host.scores
    ensures host.phase == Unset ==> t == joiner.(players := t.players)
  {
    var after := JoinRequestStep(host, id, name, peer);
    assert after.outbox[|host.outbox| + 1] == SendTo(peer, JoinConfirmed(after.players, host.localId, SnapshotOf(host)));
  }

  /**
   * A play accepted in SELECTING ends up among the plays, the submitters
   * gain exactly its player, and no player gets two plays. The plays are
   * the replace-or-insert result, reordered only when the host starts
   * judging.
   */
  lemma PlayedCardPlays(s: State, p: PlayedCard, t: State)
    requires s.phase == Selecting && PlayedCardOutcome(s, p, t)
    ensures multiset(t.playedCards) == multiset(Submit(s.playedCards, p))
    ensures !(s.isHost && |Submit(s.playedCards, p)| == |s.players| - 1) ==> t.playedCards == Submit(s.playedCards, p)
    ensures p in t.playedCards
    ensures Submitters(t.playedCards) == Submitters(s.playedCards) + {p.playerId}
    ensures UniqueSubmitters(s.playedCards) ==> UniqueSubmitters(t.playedCards)
  {
    var plays := Submit(s.playedCards, p);
    PermutationKeepsUnique(plays, t.playedCards);
    if UniqueSubmitters(s.playedCards) {
      SubmitKeepsUnique(s.playedCards, p);
    }
    assert p in multiset(plays) by {
      assert plays[|plays| - 1] == p;
    }
    assert p in multiset(t.playedCards);
  }

  /**
   * On the host, with no duplicate submitters, an accepted play starts
   * judging exactly when the players who have played number one fewer than
   * the roster; otherwise the phase stays SELECTING.
   */
  lemma HostJudgesWhenAllPlayed(s: State, p: PlayedCard, t: State)
    requires s.isHost && s.phase == Selecting && PlayedCardOutcome(s, p, t)
    requires UniqueSubmitters(s.playedCards)
    ensures t.phase == Judging <==> |Submitters(s.playedCards) + {p.playerId}| == |s.players| - 1
    ensures t.phase != Judging ==> t.phase == Selecting && t.judgingCards == s.judgingCards
    ensures t.phase == Judging ==> t.judgingCards == Some(t.playedCards)
  {
    SubmitKeepsUnique(s.playedCards, p);
    UniqueCount(Submit(s.playedCards, p));
  }

  /**
   * Nothing stops the czar from playing: a play from the czar that reaches
   * a peer in SELECTING is recorded like any other.
   */
  lemma CzarPlayIsAccepted(s: State, p: PlayedCard, t: State)
    requires s.phase == Selecting && s.czar == Some(p.playerId) && PlayedCardOutcome(s, p, t)
    ensures s.czar.value in Submitters(t.playedCards)
  {
    PlayedCardPlays(s, p, t);
  }

  /**
   * Apart from a game start (which empties the score map) and a join
   * confirmation (which copies the host's), no message lowers a score, and
   * only a czar choice naming a player with a play raises one, by exactly 1.
   */
  lemma MessageScores(s: State, m: Message, sender: PlayerId, t: State)
    requires MessageOutcome(s, m, sender, t)
    requires !m.StartGame? && !m.JoinConfirmed?
    ensures forall q :: ScoreOf(t.scores, q) >= ScoreOf(s.scores, q)
    ensures m.CzarChoice? && m.winnerId in Submitters(CardsToCheck(s)) ==>
              ScoreOf(t.scores, m.winnerId) == ScoreOf(s.scores, m.winnerId) + 1
    ensures !(m.CzarChoice? && m.winnerId in Submitters(CardsToCheck(s))) ==> t.scores == s.scores
  {
    match m
    case PlayedCardMessage(p) =>
      if s.phase == Selecting {
        assert t.scores == s.scores;
      }
    case _ =>
  }

  /**
   * Every handler except those that copy a list of plays from a message
   * (`cards_update`, `judging_start`, `join_confirmed`) keeps the plays free
   * of duplicate submitters.
   */
  lemma MessageKeepsUniquePlays(s: State, m: Message, sender: PlayerId, t: State)
    requires MessageOutcome(s, m, sender, t) && UniqueSubmitters(s.playedCards)
    requires !m.CardsUpdate? && !m.JudgingStart? && !m.JoinConfirmed?
    ensures UniqueSubmitters(t.playedCards)
  {
    match m
    case PlayedCardMessage(p) =>
      if s.phase == Selecting {
        PlayedCardPlays(s, p, t);
      }
    case _ =>
  }

  /**
   * A round advance either empties the plays or leaves them as they were,
   * so it keeps them free of duplicate submitters.
   */
  lemma AdvanceKeepsUniquePlays(s: State)
    requires UniqueSubmitters(s.playedCards)
    ensures UniqueSubmitters(AdvanceRound(s).playedCards)
  {
    if s.isHost && |s.players| > 0 {
      var setup := NextRoundSetup(s);
      var t := ApplyRoundSetup(s.(outbox := s.outbox + [Broadcast(NewRound(setup))]), setup);
      assert t.playedCards == [] || t.playedCards == s.playedCards;
    }
  }

  /**
   * The same holds for a round advance forced by the czar leaving and for
   * one fired by the timer.
   */
  lemma RoundDriversKeepUniquePlays(s: State, id: PlayerId)
    requires UniqueSubmitters(s.playedCards)
    ensures UniqueSubmitters(RemoveStep(s, id).playedCards)
    ensures UniqueSubmitters(TimerStep(s).playedCards)
  {
    if id in Ids(s.players) {
      var gone := s.players[IndexOf(s.players, id)];
      AdvanceKeepsUniquePlays(s.(players := RemoveById(s.players, id),
                                 outbox := s.outbox + [Broadcast(PlayerDisconnected(id, gone.name))]));
    }
    AdvanceKeepsUniquePlays(s.(scheduledRounds := if s.scheduledRounds == 0 then 0 else s.scheduledRounds - 1));
  }

  /**
   * Removing a player who is on a roster without duplicate ids takes out
   * exactly that entry; a new round is forced only on the host and only
   * when the player was the czar, and then it is announced after the
   * disconnect notice.
   */
  lemma RemoveKnownPlayer(s: State, k: nat)
    requires UniqueIds(s.players) && k < |s.players|
    ensures var t := RemoveStep(s, s.players[k].id);
            && t.players == s.players[..k] + s.players[k + 1..]
            && |t.outbox| == |s.outbox| + (if s.isHost && s.czar == Some(s.players[k].id) && |t.players| > 0 then 2 else 1)
            && t.outbox[|s.outbox|] == Broadcast(PlayerDisconnected(s.players[k].id, s.players[k].name))
            && (!(s.isHost && s.czar == Some(s.players[k].id)) ==>
                  t.czar == s.czar && t.roundNumber == s.roundNumber && t.phase == s.phase)
  {
    var id := s.players[k].id;
    RemoveExactlyOne(s.players, k);
    IndexOfMember(s.players, k);
    assert id in Ids(s.players);
  }

  /**
   * The conditions under which `k` more round advances on the host each
   * rotate the czar: a non-empty roster without empty ids, and a prompt
   * card for each of the `k` rounds.
   */
  predicate CanAdvance(s: State, k: nat)
  {
    && s.isHost && |s.players| > 0 && (forall p :: p in s.players ==> p.id != "")
    && 0 <= s.roundNumber && s.roundNumber + k <= |s.gameData.black|
  }

  /**
   * One round advance on the host, with a prompt card left and no empty
   * player id: the czar role moves one place down the roster, the round
   * number goes up by one, and the roster stays.
   */
  lemma AdvanceOnce(s: State, k: nat)
    requires CanAdvance(s, k + 1)
    ensures CanAdvance(AdvanceRound(s), k)
    ensures AdvanceRound(s).czar == Some(s.players[NextCzarIndex(s.players, s.czar)].id)
    ensures AdvanceRound(s).roundNumber == s.roundNumber + 1
    ensures AdvanceRound(s).players == s.players
  {
    var next := s.players[NextCzarIndex(s.players, s.czar)];
    assert next in s.players;
    AdvanceRoundEffect(s);
  }

  /** Host states one after the other, each one round advance after the previous one. */
  predicate IsRun(run: seq<State>)
    decreases |run|
  {
    |run| <= 1 || (run[1] == AdvanceRound(run[0]) && IsRun(run[1..]))
  }

  /**
   * One round advance on the host from a czar at roster index `i` of a
   * roster without duplicate ids hands the role to the player at the next
   * index, wrapping round.
   */
  lemma AdvanceFromMember(s: State, i: nat, k: nat)
    requires CanAdvance(s, k + 1) && UniqueIds(s.players) && i < |s.players| && s.czar == Some(s.players[i].id)
    ensures CanAdvance(AdvanceRound(s), k)
    ensures AdvanceRound(s).czar == Some(s.players[Successor(|s.players|, i)].id)
    ensures AdvanceRound(s).roundNumber == s.roundNumber + 1
    ensures AdvanceRound(s).players == s.players
  {
    AdvanceOnce(s, k);
    NextOfMember(s.players, i);
  }

  /**
   * Along a run of round advances on the host, while the prompt deck lasts
   * and no player id is empty, the czar role walks down the fixed roster of
   * distinct players one place per advance, wrapping round at the end, and
   * one round is counted per advance.
   */
  lemma {:induction false} RunRotatesCzar(run: seq<State>, i: nat)
    requires IsRun(run) && |run| > 0 && CanAdvance(run[0], |run| - 1)
    requires UniqueIds(run[0].players) && i < |run[0].players| && run[0].czar == Some(run[0].players[i].id)
    ensures run[|run| - 1].players == run[0].players
    ensures run[|run| - 1].czar == Some(run[0].players[Walk(|run[0].players|, i, |run| - 1)].id)
    ensures run[|run| - 1].roundNumber == run[0].roundNumber + |run| - 1
    decreases |run|
  {
    if |run| > 1 {
      var n, tail, j := |run[0].players|, run[1..], Successor(|run[0].players|, i);
      assert tail[0] == run[1] == AdvanceRound(run[0]);
      assert tail[|tail| - 1] == run[|run| - 1];
      AdvanceFromMember(run[0], i, |run| - 2);
      RunRotatesCzar(tail, j);
      assert Walk(n, i, |run| - 1) == Walk(n, j, |tail| - 1);
    }
  }

  /**
   * With a roster of `n` distinct players and prompt cards for `n` more
   * rounds, `n` round advances give the czar role back to whoever holds it.
   */
  lemma CzarReturnsAfterFullRotation(run: seq<State>, i: nat)
    requires IsRun(run) && |run| > 0 && CanAdvance(run[0], |run| - 1)
    requires UniqueIds(run[0].players) && i < |run[0].players| && run[0].czar == Some(run[0].players[i].id)
    requires |run| == |run[0].players| + 1
    ensures run[|run| - 1].czar == run[0].czar
  {
    RunRotatesCzar(run, i);
    WalkCycles(|run[0].players|, i);
  }

  /**
   * When the czar disconnects from the host, the role goes to the first
   * player left on the roster (the czar's position is no longer found),
   * and a new round starts in SELECTING whatever the phase was, GAME_OVER
   * included, as long as someone is left and a prompt card remains.
   */
  lemma CzarLeavingPassesToFirstPlayer(s: State, id: PlayerId)
    requires s.isHost && s.czar == Some(id) && id in Ids(s.players)
    requires |RemoveById(s.players, id)| > 0 && 0 <= s.roundNumber < |s.gameData.black|
    requires forall p :: p in s.players ==> p.id != ""
    ensures RemoveStep(s, id).czar == Some(RemoveById(s.players, id)[0].id)
    ensures RemoveStep(s, id).phase == Selecting
    ensures RemoveStep(s, id).roundNumber == s.roundNumber + 1
  {
    var rest := RemoveById(s.players, id);
    assert rest[0] in rest;
    var gone := s.players[IndexOf(s.players, id)];
    AdvanceRoundEffect(s.(players := rest, outbox := s.outbox + [Broadcast(PlayerDisconnected(id, gone.name))]));
  }

  /**
   * The host's own game start: round 1 in SELECTING, a czar from the
   * roster, every score 0, the host's hand the slice of the shuffled white
   * deck at its roster position, and a first prompt card from the deck
   * whenever the deck has one.
   */
  lemma HostGameStart(s: State, setup: GameSetup, whiteOrder: seq<Card>)
    requires DealtSetup(setup, whiteOrder, s.players, s.gameData)
    ensures var t := StartGameStep(s, setup);
            && t.phase == Selecting && t.roundNumber == 1 && t.playedCards == []
            && t.czar.Some? && t.czar.value in Ids(s.players)
            && (forall id :: ScoreOf(t.scores, id) == 0)
            && (forall j ::
                  (0 <= j < |s.players| && s.players[j].id == s.localId && LastWithId(s.players, j, |s.players|))
                  ==> t.hand == HandSlice(whiteOrder, j))
            && (s.localId !in Ids(s.players) ==> t.hand == [])
            && (|s.gameData.black| > 0 <==> t.blackCard.Some?)
            && (t.blackCard.Some? ==> t.blackCard.value in s.gameData.black)
  {
    var blacks := setup.blackCards.value;
    assert |blacks| == |multiset(blacks)| == |multiset(s.gameData.black)| == |s.gameData.black|;
    if |blacks| > 0 {
      assert blacks[0] in multiset(blacks);
    }
  }
}
