// The mode vote (Balanced / Captains) that opens when the queue fills, and the greedy
// balanced team split it triggers.

module ModeVoteView {

  import opened BotState
  import opened Ranking

  // ---------------------------------------------------------------------------
  // Greedy balanced split (_setup_balanced_teams)
  // ---------------------------------------------------------------------------

  /** The loop state of the split: both teams and their running MMR sums. */
  datatype Split = Split(team1: seq<Player>, team2: seq<Player>, sum1: int, sum2: int)

  /** Total MMR of a team, summed in list order. */
  function SumMmr(team: seq<Player>, mmr: map<Key, Record>): int
    requires AllRated(team, mmr)
  {
    if team == [] then 0 else SumMmr(team[..|team| - 1], mmr) + MmrOf(mmr, team[|team| - 1])
  }

  /** One iteration: the player joins team1 when team1's sum is not above team2's. */
  function Place(st: Split, p: Player, m: int): Split {
    if st.sum1 <= st.sum2 then Split(st.team1 + [p], st.team2, st.sum1 + m, st.sum2)
    else Split(st.team1, st.team2 + [p], st.sum1, st.sum2 + m)
  }

  /** The split after dealing the players in order. */
  function GreedySplit(players: seq<Player>, mmr: map<Key, Record>): (r: Split)
    requires AllRated(players, mmr)
    ensures |r.team1| + |r.team2| == |players|
  {
    if players == [] then Split([], [], 0, 0)
    else
      var n := |players| - 1;
      Place(GreedySplit(players[..n], mmr), players[n], MmrOf(mmr, players[n]))
  }

  lemma PrefixRated(players: seq<Player>, mmr: map<Key, Record>, n: nat)
    requires AllRated(players, mmr) && n <= |players|
    ensures AllRated(players[..n], mmr)
  {
    assert forall i :: 0 <= i < n ==> players[..n][i] == players[i];
  }

  /** Every player ends up in exactly one team: team1 ++ team2 is a permutation of the input. */
  lemma {:induction false} GreedySplitPermutation(players: seq<Player>, mmr: map<Key, Record>)
    requires AllRated(players, mmr)
    ensures var r := GreedySplit(players, mmr); multiset(r.team1 + r.team2) == multiset(players)
  {
    if players != [] {
      var n := |players| - 1;
      PrefixRated(players, mmr, n);
      GreedySplitPermutation(players[..n], mmr);
      assert players == players[..n] + [players[n]];
    }
  }

  /** The running sums t1_mmr and t2_mmr are the total MMR of each team. */
  lemma {:induction false} GreedySplitSums(players: seq<Player>, mmr: map<Key, Record>)
    requires AllRated(players, mmr)
    ensures var r := GreedySplit(players, mmr);
      && AllRated(r.team1, mmr) && AllRated(r.team2, mmr)
      && r.sum1 == SumMmr(r.team1, mmr) && r.sum2 == SumMmr(r.team2, mmr)
  {
    if players != [] {
      var n := |players| - 1;
      PrefixRated(players, mmr, n);
      GreedySplitSums(players[..n], mmr);
      PlaceKeepsSums(GreedySplit(players[..n], mmr), players[n], mmr);
    }
  }

  /** Placing a rated player keeps each running sum equal to its team's total. */
  lemma PlaceKeepsSums(st: Split, p: Player, mmr: map<Key, Record>)
    requires p.id in mmr && AllRated(st.team1, mmr) && AllRated(st.team2, mmr)
    requires st.sum1 == SumMmr(st.team1, mmr) && st.sum2 == SumMmr(st.team2, mmr)
    ensures var r := Place(st, p, MmrOf(mmr, p));
      && AllRated(r.team1, mmr) && AllRated(r.team2, mmr)
      && r.sum1 == SumMmr(r.team1, mmr) && r.sum2 == SumMmr(r.team2, mmr)
  {
    var r := Place(st, p, MmrOf(mmr, p));
    if st.sum1 <= st.sum2 {
      assert r.team1[..|r.team1| - 1] == st.team1;
    } else {
      assert r.team2[..|r.team2| - 1] == st.team2;
    }
  }

  /** The teams _setup_balanced_teams assigns: the queue sorted by descending MMR, split greedily. */
  function BalancedSplitOf(queue: seq<Player>, mmr: map<Key, Record>): Split
    requires AllRated(queue, mmr)
  {
    GreedySplit(SortDesc(queue, mmr), mmr)
  }

  /** The balanced teams hold exactly the queued players, each as often as queued. */
  lemma BalancedIsPermutation(queue: seq<Player>, mmr: map<Key, Record>)
    requires AllRated(queue, mmr)
    ensures var r := BalancedSplitOf(queue, mmr);
      multiset(r.team1 + r.team2) == multiset(queue)
  {
    GreedySplitPermutation(SortDesc(queue, mmr), mmr);
  }

  /** With MMRs in [0, bound], the greedy rule keeps the two sums within bound of each other,
      whatever the order the players come in. */
  lemma {:induction false} GreedyGapBound(players: seq<Player>, mmr: map<Key, Record>, bound: int)
    requires AllRated(players, mmr) && bound >= 0
    requires forall i :: 0 <= i < |players| ==> 0 <= MmrOf(mmr, players[i]) <= bound
    ensures var r := GreedySplit(players, mmr); -bound <= r.sum1 - r.sum2 <= bound
  {
    if players != [] {
      var n := |players| - 1;
      assert forall i :: 0 <= i < n ==> players[..n][i] == players[i];
      GreedyGapBound(players[..n], mmr, bound);
    }
  }

  /** |sum(team1) - sum(team2)| never exceeds the largest MMR in the queue (any upper bound
      of the queue's non-negative MMRs bounds the gap). */
  lemma BalancedGapBound(queue: seq<Player>, mmr: map<Key, Record>, bound: int)
    requires AllRated(queue, mmr) && bound >= 0
    requires forall i :: 0 <= i < |queue| ==> 0 <= MmrOf(mmr, queue[i]) <= bound
    ensures var r := BalancedSplitOf(queue, mmr);
      && AllRated(r.team1, mmr) && AllRated(r.team2, mmr)
      && -bound <= SumMmr(r.team1, mmr) - SumMmr(r.team2, mmr) <= bound
  {
    var sorted := SortDesc(queue, mmr);
    forall i | 0 <= i < |sorted|
      ensures 0 <= MmrOf(mmr, sorted[i]) <= bound
    {
      assert sorted[i] in multiset(queue);
      var j :| 0 <= j < |queue| && queue[j] == sorted[i];
    }
    GreedyGapBound(sorted, mmr, bound);
    GreedySplitSums(sorted, mmr);
  }

  /** A first player rated 1000 followed by players rated 100 each: the followers all go to team2
      as long as team2's sum stays below 1000. */
  lemma {:induction false} StarAgainstFlat(players: seq<Player>, mmr: map<Key, Record>)
    requires 1 <= |players| <= QueueSize && AllRated(players, mmr)
    requires MmrOf(mmr, players[0]) == 1000
    requires forall i :: 1 <= i < |players| ==> MmrOf(mmr, players[i]) == 100
    ensures GreedySplit(players, mmr) == Split([players[0]], players[1..], 1000, 100 * (|players| - 1))
  {
    var n := |players| - 1;
    if n > 0 {
      PrefixRated(players, mmr, n);
      StarAgainstFlat(players[..n], mmr);
      assert players[..n][1..] + [players[n]] == players[1..];
    }
  }

  /** The split does not promise 5 against 5: one strong player can end up alone against nine. */
  lemma GreedyMaySplitUnevenly()
    ensures exists players: seq<Player>, mmr: map<Key, Record> ::
      |players| == QueueSize && AllRated(players, mmr) && SortedDesc(players, mmr) &&
      |GreedySplit(players, mmr).team1| == 1 && |GreedySplit(players, mmr).team2| == 9
  {
    var players := seq(10, i requires 0 <= i < 10 => Player(IntKey(i), "player"));
    var mmr := map i | 0 <= i < 10 :: IntKey(i) := if i == 0 then Record(1000, 0, 0) else Record(100, 0, 0);
    assert AllRated(players, mmr);
    StarAgainstFlat(players, mmr);
  }

  /** _setup_balanced_teams without the final assignment: sort, then the loop with the running
      sums t1_mmr and t2_mmr. */
  method BalancedTeams(queue: seq<Player>, mmr: map<Key, Record>) returns (team1: seq<Player>, team2: seq<Player>)
    requires AllRated(queue, mmr)
    ensures team1 == BalancedSplitOf(queue, mmr).team1 && team2 == BalancedSplitOf(queue, mmr).team2
    ensures multiset(team1 + team2) == multiset(queue)
  {
    var players := SortDesc(queue, mmr);
    team1, team2 := [], [];
    var t1Mmr, t2Mmr := 0, 0;
    var i := 0;
    while i < |players|
      invariant 0 <= i <= |players|
      invariant AllRated(players[..i], mmr)
      invariant Split(team1, team2, t1Mmr, t2Mmr) == GreedySplit(players[..i], mmr)
    {
      GreedyStep(players, mmr, i);
      var player := players[i];
      if t1Mmr <= t2Mmr {
        team1 := team1 + [player];
        t1Mmr := t1Mmr + mmr[player.id].mmr;
      } else {
        team2 := team2 + [player];
        t2Mmr := t2Mmr + mmr[player.id].mmr;
      }
      i := i + 1;
    }
    assert players[..i] == players;
    BalancedIsPermutation(queue, mmr);
  }

  /** One more iteration of the split loop places the next player. */
  lemma GreedyStep(players: seq<Player>, mmr: map<Key, Record>, i: nat)
    requires AllRated(players, mmr) && i < |players|
    ensures AllRated(players[..i], mmr) && AllRated(players[..i + 1], mmr)
    ensures GreedySplit(players[..i + 1], mmr) ==
      Place(GreedySplit(players[..i], mmr), players[i], MmrOf(mmr, players[i]))
  {
    PrefixRated(players, mmr, i);
    PrefixRated(players, mmr, i + 1);
    assert players[..i + 1][..i] == players[..i];
  }

  // ---------------------------------------------------------------------------
  // The vote
  // ---------------------------------------------------------------------------

  /** What check_vote decides from the tallies, if anything. With the timeout flag set the
      strictly higher tally wins and a tie goes to the coin (random.choice); without it an
      option wins once it has more than 4 votes, Balanced checked first. */
  function ModeDecision(balanced: nat, captains: nat, timeout: bool, coin: bool): (r: Option<Mode>)
    ensures timeout ==> r.Some?
    ensures timeout && balanced > captains ==> r == Some(Balanced)
    ensures timeout && captains > balanced ==> r == Some(Captains)
    ensures timeout && balanced == captains ==> r == Some(if coin then Balanced else Captains)
    ensures !timeout ==> (r == Some(Balanced) <==> balanced > 4)
    ensures !timeout ==> (r == Some(Captains) <==> balanced <= 4 && captains > 4)
    ensures !timeout ==> (r == None <==> balanced <= 4 && captains <= 4)
  {
    if timeout then
      if balanced > captains then Some(Balanced)
      else if captains > balanced then Some(Captains)
      else Some(if coin then Balanced else Captains)
    else if balanced > 4 then Some(Balanced)
    else if captains > 4 then Some(Captains)
    else None
  }

  /** How a click on a mode button was answered. */
  datatype ModeBallot = NotInQueue | AlreadyVoted | Counted(afterPhaseEnded: bool)

  class ModeVote {
    var votes: map<Mode, nat>
    var voters: set<string>
    var votingPhaseEnded: bool
    var timeout: bool
    const bot: Bot

    /** Each counted voter raised exactly one tally; the timer ends the phase when it sets timeout. */
    ghost predicate Valid()
      reads this
    {
      && Balanced in votes && Captains in votes
      && votes[Balanced] + votes[Captains] == |voters|
      && (timeout ==> votingPhaseEnded)
    }

    /** The bot's mode and teams after check_vote reached decision d, given their values before. */
    ghost predicate ModeApplied(d: Option<Mode>, ended0: bool, mode0: Option<Mode>, t1: seq<Player>, t2: seq<Player>)
      reads this, bot
      requires bot.QueueRated()
    {
      match d
      case None =>
        votingPhaseEnded == ended0 && bot.chosenMode == mode0 && bot.team1 == t1 && bot.team2 == t2
      case Some(m) =>
        && votingPhaseEnded && bot.chosenMode == d
        && if m == Balanced then
             bot.team1 == BalancedSplitOf(bot.queue, bot.playerMmr).team1 &&
             bot.team2 == BalancedSplitOf(bot.queue, bot.playerMmr).team2
           else bot.team1 == t1 && bot.team2 == t2
    }

    constructor (bot: Bot)
      ensures Valid() && this.bot == bot
      ensures votes == map[Balanced := 0, Captains := 0] && voters == {}
      ensures !votingPhaseEnded && !timeout
    {
      this.bot := bot;
      votes := map[Balanced := 0, Captains := 0];
      voters := {};
      votingPhaseEnded := false;
      timeout := false;
    }

    /** balanced_callback / captains_callback. The "phase already ended" notice does not return,
        so a late click from an eligible voter is still counted and re-runs check_vote. The
        membership test looks up str(user.id) among the queue's ids. */
    method Vote(choice: Mode, userId: nat, coin: bool) returns (outcome: ModeBallot)
      requires Valid() && bot.QueueRated()
      modifies this`votes, this`voters, this`votingPhaseEnded, bot`chosenMode, bot`team1, bot`team2
      ensures Valid() && bot.QueueRated()
      ensures outcome == NotInQueue <==> StrKey(DecimalString(userId)) !in Ids(old(bot.queue))
      ensures outcome == AlreadyVoted <==>
        StrKey(DecimalString(userId)) in Ids(old(bot.queue)) && DecimalString(userId) in old(voters)
      ensures !outcome.Counted? ==>
        unchanged(this) && unchanged(bot)
      ensures outcome.Counted? ==>
        && outcome.afterPhaseEnded == old(votingPhaseEnded)
        && votes == old(votes)[choice := old(votes)[choice] + 1]
        && voters == old(voters) + {DecimalString(userId)}
        && timeout == old(timeout)
        && bot.queue == old(bot.queue) && bot.playerMmr == old(bot.playerMmr)
        && ModeApplied(ModeDecision(votes[Balanced], votes[Captains], timeout, coin),
                   old(votingPhaseEnded), old(bot.chosenMode), old(bot.team1), old(bot.team2))
    {
      var ended := votingPhaseEnded;
      var id := DecimalString(userId);
      if StrKey(id) !in Ids(bot.queue) {
        return NotInQueue;
      }
      if id in voters {
        return AlreadyVoted;
      }
      votes := votes[choice := votes[choice] + 1];
      voters := voters + {id};
      CheckVote(coin);
      outcome := Counted(ended);
    }

    /** check_vote: apply ModeDecision to the bot. The second timeout block of the source
        cannot be reached (the first one returns whenever timeout is set). */
    method CheckVote(coin: bool)
      requires Valid() && bot.QueueRated()
      modifies this`votingPhaseEnded, bot`chosenMode, bot`team1, bot`team2
      ensures Valid() && bot.QueueRated()
      ensures ModeApplied(ModeDecision(votes[Balanced], votes[Captains], timeout, coin),
                      old(votingPhaseEnded), old(bot.chosenMode), old(bot.team1), old(bot.team2))
    {
      var b, c := votes[Balanced], votes[Captains];
      if timeout {
        if b > c {
          bot.chosenMode := Some(Balanced);
          votingPhaseEnded := true;
          SetupBalancedTeams();
        } else if c > b {
          bot.chosenMode := Some(Captains);
          votingPhaseEnded := true;
        } else {
          var decision := if coin then Balanced else Captains;
          bot.chosenMode := Some(decision);
          if decision == Balanced {
            SetupBalancedTeams();
          }
        }
        return;
      }
      if b > 4 {
        bot.chosenMode := Some(Balanced);
        votingPhaseEnded := true;
        SetupBalancedTeams();
        return;
      } else if c > 4 {
        bot.chosenMode := Some(Captains);
        votingPhaseEnded := true;
        return;
      }
    }

    /** _setup_balanced_teams */
    method SetupBalancedTeams()
      requires bot.QueueRated()
      modifies bot`team1, bot`team2
      ensures bot.team1 == BalancedSplitOf(bot.queue, bot.playerMmr).team1
      ensures bot.team2 == BalancedSplitOf(bot.queue, bot.playerMmr).team2
    {
      bot.team1, bot.team2 := BalancedTeams(bot.queue, bot.playerMmr);
    }

    /** start_timer once its 25 seconds are up: if the phase is still open, set timeout, end the
        phase and decide (so some mode is always chosen); otherwise do nothing. */
    method TimerFires(coin: bool)
      requires Valid() && bot.QueueRated()
      modifies this`timeout, this`votingPhaseEnded, bot`chosenMode, bot`team1, bot`team2
      ensures Valid() && bot.QueueRated()
      ensures old(votingPhaseEnded) ==> unchanged(this) && unchanged(bot)
      ensures !old(votingPhaseEnded) ==>
        && timeout && votingPhaseEnded && votes == old(votes) && voters == old(voters)
        && bot.chosenMode.Some?
        && ModeApplied(ModeDecision(votes[Balanced], votes[Captains], true, coin),
                   true, old(bot.chosenMode), old(bot.team1), old(bot.team2))
    {
      if !votingPhaseEnded {
        timeout := true;
        votingPhaseEnded := true;
        CheckVote(coin);
      }
    }
  }

  /** Sign-up queues ids as ints and the mode vote looks up str(user.id), so against a queue of
      int ids every mode-vote click is refused as "Must be in queue!". */
  lemma IntQueueRefusesModeVotes(queue: seq<Player>, userId: nat)
    requires forall i :: 0 <= i < |queue| ==> queue[i].id.IntKey?
    ensures StrKey(DecimalString(userId)) !in Ids(queue)
  {
  }
}
