/**
 * The ordered roster of players: lookup by id, removal by id, and the czar
 * rotation the host performs at the start of every round.
 */
module Roster {
  import opened CahTypes

  /** Every player id occurs once in the roster. */
  predicate UniqueIds(players: seq<Player>)
  {
    forall i, j :: 0 <= i < j < |players| ==> players[i].id != players[j].id
  }

  /** The ids on the roster. */
  function Ids(players: seq<Player>): set<PlayerId>
  {
    set p | p in players :: p.id
  }

  /** The ids of a roster prefix grow by one player's id per player. */
  lemma IdsOfLongerPrefix(players: seq<Player>, k: nat)
    requires 0 < k <= |players|
    ensures Ids(players[..k]) == Ids(players[..k - 1]) + {players[k - 1].id}
  {
    assert players[..k] == players[..k - 1] + [players[k - 1]];
  }

  /**
   * The index of the first player whose id is `id`, or -1 when there is none:
   * `players.findIndex(p => p.id === id)`.
   */
  function IndexOf(players: seq<Player>, id: PlayerId): (i: int)
    ensures -1 <= i < |players|
    ensures i >= 0 ==> players[i].id == id && forall j :: 0 <= j < i ==> players[j].id != id
    ensures i == -1 <==> id !in Ids(players)
  {
    if players == [] then -1
    else if players[0].id == id then 0
    else
      var k := IndexOf(players[1..], id);
      assert Ids(players) == {players[0].id} + Ids(players[1..]);
      if k < 0 then -1 else k + 1
  }

  /**
   * The roster without the players whose id is `id`, the others in their
   * order: `players.filter(p => p.id !== id)`.
   */
  function RemoveById(players: seq<Player>, id: PlayerId): (r: seq<Player>)
    ensures forall p :: p in r <==> p in players && p.id != id
    ensures Ids(r) == Ids(players) - {id}
    ensures id !in Ids(players) ==> r == players
  {
    if players == [] then []
    else
      var rest := RemoveById(players[1..], id);
      assert players == [players[0]] + players[1..];
      if players[0].id == id then rest else [players[0]] + rest
  }

  /**
   * On a roster without duplicate ids, removing a player who is on it takes
   * out exactly that entry and keeps everyone else in order.
   */
  lemma {:induction false} RemoveExactlyOne(players: seq<Player>, k: nat)
    requires UniqueIds(players) && k < |players|
    ensures RemoveById(players, players[k].id) == players[..k] + players[k + 1..]
  {
    var id := players[k].id;
    var before, after := players[..k], players[k + 1..];
    assert players == before + ([players[k]] + after);
    RemoveConcat(before, [players[k]] + after, id);
    RemoveConcat([players[k]], after, id);
    OthersHaveOtherIds(players, k);
    assert RemoveById([players[k]], id) == [];
  }

  /** Filtering a concatenation filters each part. */
  lemma {:induction false} RemoveConcat(a: seq<Player>, b: seq<Player>, id: PlayerId)
    ensures RemoveById(a + b, id) == RemoveById(a, id) + RemoveById(b, id)
  {
    if a == [] {
      assert a + b == b;
    } else {
      assert (a + b)[1..] == a[1..] + b;
      RemoveConcat(a[1..], b, id);
    }
  }

  /** On a roster without duplicate ids, nobody before or after player `k` has their id. */
  lemma OthersHaveOtherIds(players: seq<Player>, k: nat)
    requires UniqueIds(players) && k < |players|
    ensures players[k].id !in Ids(players[..k]) && players[k].id !in Ids(players[k + 1..])
  {
    forall p | p in players[..k] ensures p.id != players[k].id {
      var j :| 0 <= j < k && players[..k][j] == p;
      assert players[j] == p;
    }
    forall p | p in players[k + 1..] ensures p.id != players[k].id {
      var j :| 0 <= j < |players| - k - 1 && players[k + 1..][j] == p;
      assert players[k + 1 + j] == p;
    }
  }

  /** `(j % n)` for a successor index `j` in `0..n`: `j` itself, or 0 at the end. */
  lemma WrapAround(j: int, n: int)
    requires 0 <= j <= n && n > 0
    ensures j % n == (if j < n then j else 0)
  {
  }

  /**
   * The index of the next czar: the player after the current czar, wrapping
   * round; index 0 when the czar is not on the roster (findIndex gave -1).
   * The handlers write `(i + 1) % n`; `WrapAround` shows that is this value.
   */
  function NextCzarIndex(players: seq<Player>, czar: Option<PlayerId>): (k: nat)
    requires |players| > 0
    ensures k < |players|
    ensures czar.None? || czar.value !in Ids(players) ==> k == 0
  {
    var i := if czar.None? then -1 else IndexOf(players, czar.value);
    if i + 1 < |players| then i + 1 else 0
  }

  /**
   * The next czar is the player right after the first roster entry holding
   * the czar's id, or the first player when that entry is the last one.
   */
  lemma NextCzarFollowsCzar(players: seq<Player>, czar: PlayerId)
    requires |players| > 0 && czar in Ids(players)
    ensures var k := NextCzarIndex(players, Some(czar));
            && (k > 0 ==> players[k - 1].id == czar && forall j :: 0 <= j < k - 1 ==> players[j].id != czar)
            && (k == 0 ==> players[|players| - 1].id == czar &&
                           forall j :: 0 <= j < |players| - 1 ==> players[j].id != czar)
  {
  }

  /** On a roster without duplicate ids, a player's id leads back to their index. */
  lemma IndexOfMember(players: seq<Player>, i: nat)
    requires UniqueIds(players) && i < |players|
    ensures IndexOf(players, players[i].id) == i
  {
    assert players[i].id in Ids(players);
  }

  /** On a roster without duplicate ids, the czar after player `i` is player `i + 1`, or player 0 after the last. */
  lemma NextOfMember(players: seq<Player>, i: nat)
    requires UniqueIds(players) && i < |players|
    ensures NextCzarIndex(players, Some(players[i].id)) == if i + 1 < |players| then i + 1 else 0
  {
    IndexOfMember(players, i);
  }

  /** The roster index after `i`, wrapping round to 0 after the last of `n`. */
  function Successor(n: nat, i: nat): (j: nat)
    requires i < n
    ensures j < n
  {
    if i + 1 < n then i + 1 else 0
  }

  /** The roster index reached from `i` after `m` moves to the successor. */
  function Walk(n: nat, i: nat, m: nat): (j: nat)
    requires i < n
    ensures j < n
    decreases m
  {
    if m == 0 then i else Walk(n, Successor(n, i), m - 1)
  }

  /**
   * Up to `n` moves from `i` walk down the roster and wrap round to the
   * front once past the last index: `(i + m) % n`.
   */
  lemma {:induction false} WalkWraps(n: nat, i: nat, m: nat)
    requires i < n && m <= n
    ensures Walk(n, i, m) == if i + m < n then i + m else i + m - n
    decreases m
  {
    if m > 0 {
      WalkWraps(n, Successor(n, i), m - 1);
    }
  }

  /** `n` moves on a roster of `n` come back to the start. */
  lemma WalkCycles(n: nat, i: nat)
    requires i < n
    ensures Walk(n, i, n) == i
  {
    WalkWraps(n, i, n);
  }
}
