// reaggregate_matches: rebuild every player's record from the stored matches. Each linked user
// starts again at 1000 MMR with no wins or losses; then, match by match in stored order, the
// players of the winning side gain a win and those of the other side a loss. MMR is reset but
// never recomputed.

module Reaggregate {

  import opened BotState
  import opened RiotIds
  import opened MatchReport

  /** users.find_one({"name": name, "tag": tag}): the first document with exactly these fields. */
  function FindUserByRiot(users: seq<UserDoc>, name: string, tag: string): (r: Option<UserDoc>)
    ensures r.None? <==> forall i :: 0 <= i < |users| ==> users[i].name != name || users[i].tag != tag
    ensures r.Some? ==> r.value in users && r.value.name == name && r.value.tag == tag
  {
    if users == [] then None
    else if users[0].name == name && users[0].tag == tag then Some(users[0])
    else
      var r := FindUserByRiot(users[1..], name, tag);
      assert forall i :: 0 < i < |users| ==> users[i] == users[1..][i - 1];
      r
  }

  /** The ids of every linked user. */
  function UserIds(users: seq<UserDoc>): (ids: set<Key>)
    ensures forall k :: k in ids <==> exists i :: 0 <= i < |users| && k == IntKey(users[i].discordId)
  {
    set i | 0 <= i < |users| :: IntKey(users[i].discordId)
  }

  /** The records after step 2: every user document sets its id to the default record. */
  function BaseRecords(users: seq<UserDoc>): map<Key, Record> {
    if users == [] then map[]
    else BaseRecords(users[..|users| - 1])[IntKey(users[|users| - 1].discordId) := DefaultRecord]
  }

  /** The names after step 2: the lower-cased Riot name of the last document with each id. */
  function BaseNames(users: seq<UserDoc>): map<Key, string> {
    if users == [] then map[]
    else
      var doc := users[|users| - 1];
      BaseNames(users[..|users| - 1])[IntKey(doc.discordId) := Lower(doc.name)]
  }

  /** Every linked user starts from exactly the default record. */
  lemma {:induction false} BaseRecordsShape(users: seq<UserDoc>)
    ensures BaseRecords(users).Keys == UserIds(users)
    ensures forall k :: k in BaseRecords(users) ==> BaseRecords(users)[k] == DefaultRecord
  {
    if users != [] {
      var n := |users| - 1;
      BaseRecordsShape(users[..n]);
      assert forall i :: 0 <= i < n ==> users[..n][i] == users[i];
      assert UserIds(users) == UserIds(users[..n]) + {IntKey(users[n].discordId)};
    }
  }

  /** The discord ids of the roster players on side (lower-cased team_id), in roster order; a
      player whose lower-cased name and tag match no user document is skipped. */
  function SidePlayers(users: seq<UserDoc>, players: seq<MatchPlayer>, side: string): seq<Key> {
    if players == [] then []
    else
      var n := |players| - 1;
      var p := players[n];
      var before := SidePlayers(users, players[..n], side);
      match FindUserByRiot(users, Lower(p.name), Lower(p.tag))
      case None => before
      case Some(doc) => if Lower(p.teamId) == side then before + [IntKey(doc.discordId)] else before
  }

  /** The sides as the match is credited: winners first, then losers. None when the first won
      team is neither red nor blue (or no team won), and the match is skipped. */
  function Sides(users: seq<UserDoc>, m: MatchRecord): Option<(seq<Key>, seq<Key>)> {
    var red := SidePlayers(users, m.players, "red");
    var blue := SidePlayers(users, m.players, "blue");
    if WinningTeamId(m.teams) == Some("red") then Some((red, blue))
    else if WinningTeamId(m.teams) == Some("blue") then Some((blue, red))
    else None
  }

  /** The players credited with a win for m, and those credited with a loss. */
  function WinnersOf(users: seq<UserDoc>, m: MatchRecord): seq<Key> {
    match Sides(users, m)
    case None => []
    case Some(s) => s.0
  }

  function LosersOf(users: seq<UserDoc>, m: MatchRecord): seq<Key> {
    match Sides(users, m)
    case None => []
    case Some(s) => s.1
  }

  /** One win (won) or one loss per listed id, for the ids that have a record. */
  function Credit(records: map<Key, Record>, ids: seq<Key>, won: bool): map<Key, Record> {
    if ids == [] then records
    else
      var r := Credit(records, ids[..|ids| - 1], won);
      var k := ids[|ids| - 1];
      if k !in r then r
      else if won then r[k := Record(r[k].mmr, r[k].wins + 1, r[k].losses)]
      else r[k := Record(r[k].mmr, r[k].wins, r[k].losses + 1)]
  }

  /** Crediting adds to each record exactly the number of times its id is listed, and touches
      neither the set of ids nor any MMR. */
  lemma {:induction false} CreditCounts(records: map<Key, Record>, ids: seq<Key>, won: bool)
    ensures Credit(records, ids, won).Keys == records.Keys
    ensures forall k :: k in records ==>
      && Credit(records, ids, won)[k].mmr == records[k].mmr
      && Credit(records, ids, won)[k].wins == records[k].wins + (if won then multiset(ids)[k] else 0)
      && Credit(records, ids, won)[k].losses == records[k].losses + (if won then 0 else multiset(ids)[k])
  {
    if ids != [] {
      var n := |ids| - 1;
      CreditCounts(records, ids[..n], won);
      assert ids == ids[..n] + [ids[n]];
    }
  }

  /** Steps 3d and 3e for one match. */
  function ApplyMatch(records: map<Key, Record>, users: seq<UserDoc>, m: MatchRecord): map<Key, Record> {
    match Sides(users, m)
    case None => records
    case Some(s) => Credit(Credit(records, s.0, true), s.1, false)
  }

  /** The records after all matches, in stored order. */
  function Reaggregated(users: seq<UserDoc>, matches: seq<MatchRecord>): map<Key, Record> {
    if matches == [] then BaseRecords(users)
    else ApplyMatch(Reaggregated(users, matches[..|matches| - 1]), users, matches[|matches| - 1])
  }

  /** How often k was on a winning side, and on a losing side, over all matches. */
  function TotalWins(users: seq<UserDoc>, matches: seq<MatchRecord>, k: Key): nat {
    if matches == [] then 0
    else TotalWins(users, matches[..|matches| - 1], k) + multiset(WinnersOf(users, matches[|matches| - 1]))[k]
  }

  function TotalLosses(users: seq<UserDoc>, matches: seq<MatchRecord>, k: Key): nat {
    if matches == [] then 0
    else TotalLosses(users, matches[..|matches| - 1], k) + multiset(LosersOf(users, matches[|matches| - 1]))[k]
  }

  /** After reaggregation exactly the linked users have a record; each one's MMR is 1000 and its
      wins and losses are the number of times it was on the winning and on the losing side of a
      stored match. */
  lemma {:induction false} ReaggregatedRecords(users: seq<UserDoc>, matches: seq<MatchRecord>)
    ensures Reaggregated(users, matches).Keys == UserIds(users)
    ensures forall k :: k in Reaggregated(users, matches) ==>
      Reaggregated(users, matches)[k] == Record(DefaultMmr, TotalWins(users, matches, k), TotalLosses(users, matches, k))
  {
    if matches == [] {
      BaseRecordsShape(users);
    } else {
      var n := |matches| - 1;
      var before := Reaggregated(users, matches[..n]);
      ReaggregatedRecords(users, matches[..n]);
      var m := matches[n];
      match Sides(users, m)
      case None =>
      case Some(s) =>
        CreditCounts(before, s.0, true);
        CreditCounts(Credit(before, s.0, true), s.1, false);
    }
  }

  /** The command. The stored matches arrive sorted by start time. update_stats only adds the
      per-match statistics this model does not follow, so it is not modelled. Returns the number
      of matches processed. */
  method ReaggregateMatches(bot: Bot, users: seq<UserDoc>, matches: seq<MatchRecord>) returns (processed: nat)
    modifies bot`playerMmr, bot`playerNames
    ensures bot.playerMmr == Reaggregated(users, matches)
    ensures bot.playerNames == BaseNames(users)
    ensures processed == |matches|
  {
    bot.playerMmr := map[];
    bot.playerNames := map[];
    var u := 0;
    while u < |users|
      invariant 0 <= u <= |users|
      invariant bot.playerMmr == BaseRecords(users[..u]) && bot.playerNames == BaseNames(users[..u])
    {
      assert users[..u + 1][..u] == users[..u];
      var doc := users[u];
      bot.playerMmr := bot.playerMmr[IntKey(doc.discordId) := DefaultRecord];
      bot.playerNames := bot.playerNames[IntKey(doc.discordId) := Lower(doc.name)];
      u := u + 1;
    }
    assert users[..u] == users;
    processed := 0;
    var j := 0;
    while j < |matches|
      invariant 0 <= j <= |matches| && processed == j
      invariant bot.playerMmr == Reaggregated(users, matches[..j])
      invariant bot.playerNames == BaseNames(users)
    {
      assert matches[..j + 1][..j] == matches[..j];
      processed := processed + 1;
      var m := matches[j];
      var red, blue := CollectSides(users, m.players);
      var winningTeamId := WinningTeamId(m.teams);
      if winningTeamId == Some("red") {
        CreditWins(bot, red, true);
        CreditWins(bot, blue, false);
      } else if winningTeamId == Some("blue") {
        CreditWins(bot, blue, true);
        CreditWins(bot, red, false);
      }
      j := j + 1;
    }
    assert matches[..j] == matches;
  }

  /** Step 3c: walk the roster and sort the linked players into red and blue. */
  method CollectSides(users: seq<UserDoc>, players: seq<MatchPlayer>) returns (red: seq<Key>, blue: seq<Key>)
    ensures red == SidePlayers(users, players, "red")
    ensures blue == SidePlayers(users, players, "blue")
  {
    red, blue := [], [];
    var k := 0;
    while k < |players|
      invariant 0 <= k <= |players|
      invariant red == SidePlayers(users, players[..k], "red")
      invariant blue == SidePlayers(users, players[..k], "blue")
    {
      assert players[..k + 1][..k] == players[..k];
      var p := players[k];
      var teamId := Lower(p.teamId);
      var entry := FindUserByRiot(users, Lower(p.name), Lower(p.tag));
      if entry.Some? {
        var id := IntKey(entry.value.discordId);
        if teamId == "red" {
          red := red + [id];
        } else if teamId == "blue" {
          blue := blue + [id];
        }
      }
      k := k + 1;
    }
    assert players[..k] == players;
  }

  /** Step 3e for one side: a win (or a loss) for each listed id that has a record. */
  method CreditWins(bot: Bot, ids: seq<Key>, won: bool)
    modifies bot`playerMmr
    ensures bot.playerMmr == Credit(old(bot.playerMmr), ids, won)
  {
    var t := 0;
    while t < |ids|
      invariant 0 <= t <= |ids|
      invariant bot.playerMmr == Credit(old(bot.playerMmr), ids[..t], won)
    {
      assert ids[..t + 1][..t] == ids[..t];
      var id := ids[t];
      if id in bot.playerMmr {
        var r := bot.playerMmr[id];
        if won {
          bot.playerMmr := bot.playerMmr[id := Record(r.mmr, r.wins + 1, r.losses)];
        } else {
          bot.playerMmr := bot.playerMmr[id := Record(r.mmr, r.wins, r.losses + 1)];
        }
      }
      t := t + 1;
    }
    assert ids[..t] == ids;
  }
}
