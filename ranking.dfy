// Ordering players by rating: Python's sorted(..., key=mmr, reverse=True), which is stable
// (players with equal MMR keep their queue order).

module Ranking {

  import opened BotState

  predicate AllRated(players: seq<Player>, mmr: map<Key, Record>) {
    forall i :: 0 <= i < |players| ==> players[i].id in mmr
  }

  function MmrOf(mmr: map<Key, Record>, p: Player): int
    requires p.id in mmr
  {
    mmr[p.id].mmr
  }

  predicate SortedDesc(players: seq<Player>, mmr: map<Key, Record>)
    requires AllRated(players, mmr)
  {
    forall i, j :: 0 <= i < j < |players| ==> MmrOf(mmr, players[i]) >= MmrOf(mmr, players[j])
  }

  lemma RatedMember(players: seq<Player>, mmr: map<Key, Record>, p: Player)
    requires AllRated(players, mmr) && p in players
    ensures p.id in mmr
  {
    var i :| 0 <= i < |players| && players[i] == p;
  }

  /** Inserts p into a descending list ahead of every player whose MMR is not higher. */
  function InsertDesc(p: Player, sorted: seq<Player>, mmr: map<Key, Record>): (r: seq<Player>)
    requires p.id in mmr && AllRated(sorted, mmr) && SortedDesc(sorted, mmr)
    ensures multiset(r) == multiset(sorted) + multiset{p}
    ensures |r| == |sorted| + 1
    ensures r[0] == p || (sorted != [] && r[0] == sorted[0])
    ensures AllRated(r, mmr) && SortedDesc(r, mmr)
  {
    if sorted == [] || MmrOf(mmr, sorted[0]) <= MmrOf(mmr, p) then
      [p] + sorted
    else
      var rest := InsertDesc(p, sorted[1..], mmr);
      assert sorted == [sorted[0]] + sorted[1..];
      assert MmrOf(mmr, rest[0]) <= MmrOf(mmr, sorted[0]);
      [sorted[0]] + rest
  }

  /** sorted(players, key=mmr, reverse=True) */
  function SortDesc(players: seq<Player>, mmr: map<Key, Record>): (r: seq<Player>)
    requires AllRated(players, mmr)
    ensures multiset(r) == multiset(players)
    ensures |r| == |players|
    ensures AllRated(r, mmr) && SortedDesc(r, mmr)
  {
    if players == [] then []
    else
      assert players == [players[0]] + players[1..];
      InsertDesc(players[0], SortDesc(players[1..], mmr), mmr)
  }
}
