// The report command: reconciling the reporter's most recent Valorant match with the 10-man
// that is in progress, and closing the match once the winner is known.

module MatchReport {

  import opened BotState
  import opened RiotIds

  /** An entry of the match's "players" list. */
  datatype MatchPlayer = MatchPlayer(name: string, tag: string, teamId: string)

  /** An entry of the match's "teams" list. */
  datatype MatchTeam = MatchTeam(teamId: string, won: bool)

  /** The fields of a match document that reporting reads. totalRounds is metadata.total_rounds,
      0 when missing; rounds is the length of the "rounds" list. */
  datatype MatchRecord = MatchRecord(
    mapName: string,
    totalRounds: nat,
    rounds: nat,
    teams: seq<MatchTeam>,
    players: seq<MatchPlayer>)

  datatype ReportError =
    | NotLinked
    | NoMatchData
    | NoActiveMatch
    | NoMapSelected
    | MapMismatch
    | NoTeamData
    | NoPlayers
    | RosterMismatch(missing: set<RiotId>)
    | NoWinner
    | WinnerNotMatched

  datatype Outcome = Team1Won | Team2Won

  datatype Reconciled = Rejected(error: ReportError) | Settled(outcome: Outcome, totalRounds: nat)

  /** The lower-cased Riot id a queued or drafted player is linked to, if any. */
  function LinkedId(users: seq<UserDoc>, p: Player): Option<RiotId> {
    match FindUserById(users, Str(p.id))
    case None => None
    case Some(doc) => Some(LowerId(RiotId(doc.name, doc.tag)))
  }

  /** The Riot ids of the listed players that have a linked account; the others are skipped. */
  function LinkedIds(users: seq<UserDoc>, players: seq<Player>): (ids: set<RiotId>)
    ensures forall id :: id in ids <==> exists i :: 0 <= i < |players| && LinkedId(users, players[i]) == Some(id)
  {
    set i | 0 <= i < |players| && LinkedId(users, players[i]).Some? :: LinkedId(users, players[i]).value
  }

  /** Every (name, tag) of the match's roster, lower-cased. */
  function RosterIds(players: seq<MatchPlayer>): (ids: set<RiotId>)
    ensures forall i :: 0 <= i < |players| ==> LowerId(RiotId(players[i].name, players[i].tag)) in ids
    ensures forall id :: id in ids ==> exists i :: 0 <= i < |players| && id == LowerId(RiotId(players[i].name, players[i].tag))
  {
    set i | 0 <= i < |players| :: LowerId(RiotId(players[i].name, players[i].tag))
  }

  /** The roster ids of the players whose lower-cased team_id is side. */
  function SideIds(players: seq<MatchPlayer>, side: string): (ids: set<RiotId>)
    ensures ids <= RosterIds(players)
  {
    set i | 0 <= i < |players| && Lower(players[i].teamId) == side :: LowerId(RiotId(players[i].name, players[i].tag))
  }

  /** match_team_players.get(winner, set()): only "red" and "blue" are collected. */
  function WinnerIds(players: seq<MatchPlayer>, winner: string): (ids: set<RiotId>)
    ensures winner != "red" && winner != "blue" ==> ids == {}
    ensures winner == "red" || winner == "blue" ==> ids == SideIds(players, winner)
  {
    if winner == "red" || winner == "blue" then SideIds(players, winner) else {}
  }

  /** The lower-cased team_id of the first team marked as won. */
  function WinningTeamId(teams: seq<MatchTeam>): (r: Option<string>)
    ensures r.None? <==> forall i :: 0 <= i < |teams| ==> !teams[i].won
    ensures r.Some? ==> exists i :: 0 <= i < |teams| && teams[i].won && r.value == Lower(teams[i].teamId) &&
                                    (forall j :: 0 <= j < i ==> !teams[j].won)
  {
    if teams == [] then None
    else if teams[0].won then Some(Lower(teams[0].teamId))
    else
      var r := WinningTeamId(teams[1..]);
      assert forall j :: 0 < j < |teams| ==> teams[j] == teams[1..][j - 1];
      r
  }

  /** metadata.total_rounds, falling back to the number of rounds when it is missing or 0. */
  function TotalRounds(m: MatchRecord): (n: nat)
    ensures m.totalRounds != 0 ==> n == m.totalRounds
    ensures m.totalRounds == 0 ==> n == m.rounds
  {
    if m.totalRounds == 0 then m.rounds else m.totalRounds
  }

  lemma NotSubsetLeavesMissing<T>(a: set<T>, b: set<T>)
    requires !(a <= b)
    ensures a - b != {}
  {
    var x :| x in a && x !in b;
    assert x in a - b;
  }

  /** The checks of report, in the order the command makes them. latest is the reporter's most
      recent match; None is an empty "data" list, where indexing data[0] aborts the command. */
  function Reconcile(
    users: seq<UserDoc>, reporterId: nat, latest: Option<MatchRecord>, matchOngoing: bool,
    selectedMap: Option<string>, queue: seq<Player>, team1: seq<Player>, team2: seq<Player>): (r: Reconciled)
    ensures r == Rejected(NotLinked) <==> FindUserById(users, DecimalString(reporterId)).None?
    ensures r.Rejected? && r.error.RosterMismatch? ==>
      && latest.Some?
      && r.error.missing == LinkedIds(users, queue) - RosterIds(latest.value.players)
      && r.error.missing != {}
    ensures r.Settled? ==>
      && latest.Some?
      && r.totalRounds == TotalRounds(latest.value)
      && LinkedIds(users, queue) <= RosterIds(latest.value.players)
      && WinningTeamId(latest.value.teams).Some?
      && var won := WinnerIds(latest.value.players, WinningTeamId(latest.value.teams).value);
         (r.outcome == Team1Won <==> won == LinkedIds(users, team1)) &&
         (r.outcome == Team2Won ==> won == LinkedIds(users, team2))
  {
    if FindUserById(users, DecimalString(reporterId)).None? then Rejected(NotLinked)
    else if latest.None? then Rejected(NoMatchData)
    else
      var m := latest.value;
      if !matchOngoing then Rejected(NoActiveMatch)
      else if selectedMap.None? || selectedMap.value == "" then Rejected(NoMapSelected)
      else if Lower(selectedMap.value) != Lower(m.mapName) then Rejected(MapMismatch)
      else if m.teams == [] then Rejected(NoTeamData)
      else if m.players == [] then Rejected(NoPlayers)
      else if !(LinkedIds(users, queue) <= RosterIds(m.players)) then
        NotSubsetLeavesMissing(LinkedIds(users, queue), RosterIds(m.players));
        Rejected(RosterMismatch(LinkedIds(users, queue) - RosterIds(m.players)))
      else
        match WinningTeamId(m.teams)
        case None => Rejected(NoWinner)
        case Some(w) =>
          if w == "" then Rejected(NoWinner)
          else if WinnerIds(m.players, w) == LinkedIds(users, team1) then Settled(Team1Won, TotalRounds(m))
          else if WinnerIds(m.players, w) == LinkedIds(users, team2) then Settled(Team2Won, TotalRounds(m))
          else Rejected(WinnerNotMatched)
  }

  /** A report settles exactly when every check passes and the winning side's roster is one of
      the two drafted teams. */
  lemma SettlesIff(
    users: seq<UserDoc>, reporterId: nat, latest: Option<MatchRecord>, matchOngoing: bool,
    selectedMap: Option<string>, queue: seq<Player>, team1: seq<Player>, team2: seq<Player>)
    ensures Reconcile(users, reporterId, latest, matchOngoing, selectedMap, queue, team1, team2).Settled? <==>
      && FindUserById(users, DecimalString(reporterId)).Some?
      && latest.Some?
      && matchOngoing
      && selectedMap.Some? && selectedMap.value != ""
      && Lower(selectedMap.value) == Lower(latest.value.mapName)
      && latest.value.teams != [] && latest.value.players != []
      && LinkedIds(users, queue) <= RosterIds(latest.value.players)
      && WinningTeamId(latest.value.teams).Some? && WinningTeamId(latest.value.teams).value != ""
      && var won := WinnerIds(latest.value.players, WinningTeamId(latest.value.teams).value);
         (won == LinkedIds(users, team1) || won == LinkedIds(users, team2))
  {
  }

  /** The map check ignores case: a selected "Ascent" matches an API map name "ascent". */
  lemma MapCheckIgnoresCase(
    users: seq<UserDoc>, reporterId: nat, m: MatchRecord, selected: string,
    queue: seq<Player>, team1: seq<Player>, team2: seq<Player>)
    requires FindUserById(users, DecimalString(reporterId)).Some? && selected != ""
    requires Lower(selected) == Lower(m.mapName)
    ensures Reconcile(users, reporterId, Some(m), true, Some(selected), queue, team1, team2) != Rejected(MapMismatch)
  {
  }

  /** A drafted player with no linked account is skipped: adding one does not change a team's
      Riot ids, so it cannot make a report fail or succeed. */
  lemma UnlinkedPlayerIgnored(users: seq<UserDoc>, team: seq<Player>, p: Player)
    requires FindUserById(users, Str(p.id)).None?
    ensures LinkedIds(users, team + [p]) == LinkedIds(users, team)
  {
    var extended := team + [p];
    assert forall i :: 0 <= i < |team| ==> extended[i] == team[i];
    assert LinkedId(users, extended[|team|]) == None;
  }

  /** The winning side has to equal a team exactly: one extra account on the winning side, not
      in either team, makes the report fail. */
  lemma ExtraAccountOnWinningSideRejected(
    users: seq<UserDoc>, reporterId: nat, latest: Option<MatchRecord>, matchOngoing: bool,
    selectedMap: Option<string>, queue: seq<Player>, team1: seq<Player>, team2: seq<Player>, extra: RiotId)
    requires latest.Some? && WinningTeamId(latest.value.teams).Some?
    requires var won := WinnerIds(latest.value.players, WinningTeamId(latest.value.teams).value);
      extra in won && extra !in LinkedIds(users, team1) && extra !in LinkedIds(users, team2)
    ensures !Reconcile(users, reporterId, latest, matchOngoing, selectedMap, queue, team1, team2).Settled?
  {
  }

  /** The command itself. The ratings update (update_stats over the roster, then adjust_mmr on
      the winning and losing teams, then a save and reload) is the parameter settle. On success
      the match is appended to the stored matches and the match state is cleared; on any
      rejection nothing changes. */
  method Report(
    bot: Bot, users: seq<UserDoc>, reporterId: nat, latest: Option<MatchRecord>,
    settle: (map<Key, Record>, seq<Player>, seq<Player>) -> map<Key, Record>,
    stored: seq<MatchRecord>) returns (r: Reconciled, storedAfter: seq<MatchRecord>)
    modifies bot`playerMmr, bot`matchNotReported, bot`matchOngoing, bot`queue
    ensures r == Reconcile(users, reporterId, latest, old(bot.matchOngoing), old(bot.selectedMap),
                           old(bot.queue), old(bot.team1), old(bot.team2))
    ensures r.Rejected? ==> unchanged(bot) && storedAfter == stored
    ensures r.Settled? ==>
      && latest.Some?
      && storedAfter == stored + [latest.value]
      && bot.playerMmr == (if r.outcome == Team1Won then settle(old(bot.playerMmr), old(bot.team1), old(bot.team2))
                           else settle(old(bot.playerMmr), old(bot.team2), old(bot.team1)))
      && !bot.matchOngoing && !bot.matchNotReported && bot.queue == []
  {
    r := Reconcile(users, reporterId, latest, bot.matchOngoing, bot.selectedMap, bot.queue, bot.team1, bot.team2);
    if r.Rejected? {
      storedAfter := stored;
      return;
    }
    storedAfter := stored + [latest.value];
    if r.outcome == Team1Won {
      CloseMatch(bot, bot.team1, bot.team2, settle);
    } else {
      CloseMatch(bot, bot.team2, bot.team1, settle);
    }
  }

  /** The successful end of report: the ratings are settled, and the match flags and the queue
      are cleared (cleanup_match_resources); nothing else changes. */
  method CloseMatch(
    bot: Bot, winningTeam: seq<Player>, losingTeam: seq<Player>,
    settle: (map<Key, Record>, seq<Player>, seq<Player>) -> map<Key, Record>)
    modifies bot`playerMmr, bot`matchNotReported, bot`matchOngoing, bot`queue
    ensures bot.playerMmr == settle(old(bot.playerMmr), winningTeam, losingTeam)
    ensures !bot.matchOngoing && !bot.matchNotReported && bot.queue == []
  {
    bot.playerMmr := settle(bot.playerMmr, winningTeam, losingTeam);
    bot.matchNotReported := false;
    bot.matchOngoing := false;
    bot.queue := [];
  }
}
