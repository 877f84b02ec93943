/**
 * The list of played cards of a round, and the two queries the handlers make
 * of it: replace-or-insert one player's submission, and find a player's play.
 */
module Plays {
  import opened CahTypes

  /** The plays of `s` made by `id`, in their order in `s`. */
  function EntriesFor(s: seq<PlayedCard>, id: PlayerId): seq<PlayedCard>
  {
    if s == [] then []
    else (if s[0].playerId == id then [s[0]] else []) + EntriesFor(s[1..], id)
  }

  /** The set of players who have a play in `s`. */
  function Submitters(s: seq<PlayedCard>): set<PlayerId>
  {
    set x | x in s :: x.playerId
  }

  /** No player has two plays in `s`. */
  predicate UniqueSubmitters(s: seq<PlayedCard>)
  {
    forall i, j :: 0 <= i < j < |s| ==> s[i].playerId != s[j].playerId
  }

  /**
   * The plays of `s` by anyone but `id`, in their original order; the
   * `filter(card => card.playerId !== id)` of the handlers.
   */
  function WithoutPlayer(s: seq<PlayedCard>, id: PlayerId): (r: seq<PlayedCard>)
    ensures |r| <= |s|
    ensures forall x :: x in r <==> x in s && x.playerId != id
    ensures EntriesFor(r, id) == []
  {
    if s == [] then []
    else if s[0].playerId == id then WithoutPlayer(s[1..], id)
    else [s[0]] + WithoutPlayer(s[1..], id)
  }

  /**
   * A submission: drop every earlier play of `p.playerId` and append `p`
   * last. The new play is the last entry, and the set of submitters gains
   * exactly `p.playerId`.
   */
  function Submit(s: seq<PlayedCard>, p: PlayedCard): (r: seq<PlayedCard>)
    ensures |r| >= 1 && r[|r| - 1] == p
    ensures r[..|r| - 1] == WithoutPlayer(s, p.playerId)
    ensures Submitters(r) == Submitters(s) + {p.playerId}
  {
    var kept := WithoutPlayer(s, p.playerId);
    assert (kept + [p])[..|kept|] == kept;
    kept + [p]
  }

  /**
   * The first play of `id` in `cards`, if any: the `find` over the plays by
   * player id.
   */
  function FindPlay(cards: seq<PlayedCard>, id: PlayerId): (r: Option<PlayedCard>)
    ensures r.Some? <==> id in Submitters(cards)
    ensures r.Some? ==> r.value in cards && r.value.playerId == id
    ensures r.Some? ==> EntriesFor(cards, id) != [] && r.value == EntriesFor(cards, id)[0]
  {
    if cards == [] then None
    else if cards[0].playerId == id then Some(cards[0])
    else
      assert Submitters(cards) == {cards[0].playerId} + Submitters(cards[1..]);
      FindPlay(cards[1..], id)
  }

  lemma {:induction false} EntriesForAppend(a: seq<PlayedCard>, b: seq<PlayedCard>, id: PlayerId)
    ensures EntriesFor(a + b, id) == EntriesFor(a, id) + EntriesFor(b, id)
  {
    if a != [] {
      assert (a + b)[1..] == a[1..] + b;
      EntriesForAppend(a[1..], b, id);
    } else {
      assert a + b == b;
    }
  }

  lemma {:induction false} EntriesForWithout(s: seq<PlayedCard>, id: PlayerId, q: PlayerId)
    requires q != id
    ensures EntriesFor(WithoutPlayer(s, id), q) == EntriesFor(s, q)
  {
    if s != [] {
      EntriesForWithout(s[1..], id, q);
      if s[0].playerId != id {
        EntriesForAppend([s[0]], WithoutPlayer(s[1..], id), q);
      }
    }
  }

  /**
   * After a submission the submitter has exactly one play, the new one, and
   * every other player's plays are those they had, in the same order.
   */
  lemma SubmitEntries(s: seq<PlayedCard>, p: PlayedCard, q: PlayerId)
    ensures EntriesFor(Submit(s, p), q) == if q == p.playerId then [p] else EntriesFor(s, q)
  {
    var kept := WithoutPlayer(s, p.playerId);
    EntriesForAppend(kept, [p], q);
    if q != p.playerId {
      EntriesForWithout(s, p.playerId, q);
    }
  }

  /** The plays after the first of a list without duplicate submitters: still none, and not the first one's. */
  lemma UniqueTail(s: seq<PlayedCard>)
    requires |s| > 0 && UniqueSubmitters(s)
    ensures UniqueSubmitters(s[1..]) && s[0].playerId !in Submitters(s[1..])
  {
    var tail := s[1..];
    forall i, j | 0 <= i < j < |tail| ensures tail[i].playerId != tail[j].playerId {
      assert tail[i] == s[i + 1] && tail[j] == s[j + 1];
    }
    forall x | x in tail ensures x.playerId != s[0].playerId {
      var k :| 0 <= k < |tail| && tail[k] == x;
      assert tail[k] == s[k + 1];
    }
  }

  /** A play put in front of plays without duplicate submitters and not by any of them keeps them so. */
  lemma UniqueCons(p: PlayedCard, rest: seq<PlayedCard>)
    requires UniqueSubmitters(rest) && p.playerId !in Submitters(rest)
    ensures UniqueSubmitters([p] + rest)
  {
    var r := [p] + rest;
    forall i, j | 0 <= i < j < |r| ensures r[i].playerId != r[j].playerId {
      if i == 0 {
        assert r[j] == rest[j - 1] && r[j] in rest;
      } else {
        assert r[i] == rest[i - 1] && r[j] == rest[j - 1];
      }
    }
  }

  lemma {:induction false} WithoutPlayerKeepsUnique(s: seq<PlayedCard>, id: PlayerId)
    requires UniqueSubmitters(s)
    ensures UniqueSubmitters(WithoutPlayer(s, id))
  {
    if s != [] {
      UniqueTail(s);
      WithoutPlayerKeepsUnique(s[1..], id);
      if s[0].playerId != id {
        var rest := WithoutPlayer(s[1..], id);
        assert s[0].playerId !in Submitters(rest);
        UniqueCons(s[0], rest);
      }
    }
  }

  /** A submission keeps the plays free of duplicate submitters. */
  lemma SubmitKeepsUnique(s: seq<PlayedCard>, p: PlayedCard)
    requires UniqueSubmitters(s)
    ensures UniqueSubmitters(Submit(s, p))
  {
    var kept := WithoutPlayer(s, p.playerId);
    WithoutPlayerKeepsUnique(s, p.playerId);
    var r := kept + [p];
    forall i, j | 0 <= i < j < |r| ensures r[i].playerId != r[j].playerId {
      assert r[i] == kept[i] && r[i] in kept;
      if j < |kept| {
        assert r[j] == kept[j];
      }
    }
  }

  /** With no duplicate submitters, the number of plays is the number of submitters. */
  lemma {:induction false} UniqueCount(s: seq<PlayedCard>)
    requires UniqueSubmitters(s)
    ensures |Submitters(s)| == |s|
  {
    if s != [] {
      UniqueTail(s);
      UniqueCount(s[1..]);
      SubmittersCons(s);
    }
  }

  /** The submitters of a non-empty list: the first play's, and those of the rest. */
  lemma SubmittersCons(s: seq<PlayedCard>)
    requires |s| > 0
    ensures Submitters(s) == {s[0].playerId} + Submitters(s[1..])
  {
    assert s == [s[0]] + s[1..];
  }

  /**
   * There are never more submitters than plays, and as many only when no
   * player has two plays.
   */
  lemma {:induction false} SubmittersBound(s: seq<PlayedCard>)
    ensures |Submitters(s)| <= |s|
    ensures |Submitters(s)| == |s| ==> UniqueSubmitters(s)
  {
    if s != [] {
      SubmittersBound(s[1..]);
      SubmittersCons(s);
      if s[0].playerId !in Submitters(s[1..]) && |Submitters(s)| == |s| {
        UniqueCons(s[0], s[1..]);
        assert [s[0]] + s[1..] == s;
      }
    }
  }

  /**
   * Reordering the plays (as the judging shuffle does) keeps the same
   * submitters and keeps them free of duplicates.
   */
  lemma PermutationKeepsUnique(a: seq<PlayedCard>, b: seq<PlayedCard>)
    requires multiset(a) == multiset(b)
    ensures Submitters(a) == Submitters(b)
    ensures UniqueSubmitters(a) ==> UniqueSubmitters(b)
  {
    forall x ensures x in a <==> x in b {
      assert x in a <==> x in multiset(a);
      assert x in b <==> x in multiset(b);
    }
    assert |a| == |multiset(a)| == |multiset(b)| == |b|;
    if UniqueSubmitters(a) {
      UniqueCount(a);
      SubmittersBound(b);
    }
  }
}
