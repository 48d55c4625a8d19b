// The lifecycle commands of the bot: starting and cancelling a sign-up, setting captains by
// Riot id, and the automatic captains draft of the `test` command.

module Commands {

  import opened BotState
  import opened RiotIds
  import opened Ranking
  import opened SignupView

  // ---------------------------------------------------------------------------
  // signup / cancel
  // ---------------------------------------------------------------------------

  datatype SignupOutcome = SignupInProgress | MatchUnreported | QueueOpened | SetupFailed

  /** How far the guild setup of signup gets: all the way, or an exception before or after the
      new SignupView is stored in signup_view. */
  datatype Setup = Opens | FailsBeforeView | FailsAfterView

  /** signup. Refused while a sign-up is active or the last match is unreported. Otherwise the
      ratings are reloaded from storage (reloaded), any old view is dropped, the match state is
      reset and sign-up opens; if creating the role, channel or message fails, signup_active is
      put back to false, and the new view stays stored when it was created before the failure.
      Refusals change nothing. */
  method Signup(bot: Bot, reloaded: map<Key, Record>, setup: Setup) returns (outcome: SignupOutcome)
    modifies bot
    ensures outcome == SignupInProgress <==> old(bot.signupActive)
    ensures outcome == MatchUnreported <==> !old(bot.signupActive) && old(bot.matchNotReported)
    ensures outcome == SignupInProgress || outcome == MatchUnreported ==> unchanged(bot)
    ensures outcome == QueueOpened || outcome == SetupFailed ==>
      && bot.queue == [] && bot.team1 == [] && bot.team2 == []
      && bot.captain1 == None && bot.captain2 == None
      && bot.chosenMode == None && bot.selectedMap == None
      && bot.playerMmr == reloaded && bot.playerNames == old(bot.playerNames)
      && bot.matchOngoing == old(bot.matchOngoing) && !bot.matchNotReported
      && (bot.signupActive <==> outcome == QueueOpened)
      && (outcome == QueueOpened <==> setup == Opens)
      && (bot.signupView <==> setup != FailsBeforeView)
  {
    if bot.signupActive {
      return SignupInProgress;
    }
    if bot.matchNotReported {
      return MatchUnreported;
    }
    bot.playerMmr := reloaded;
    bot.signupView := false;
    bot.signupActive := true;
    bot.queue := [];
    bot.captain1 := None;
    bot.captain2 := None;
    bot.team1 := [];
    bot.team2 := [];
    bot.chosenMode := None;
    bot.selectedMap := None;
    if setup == FailsBeforeView {
      bot.signupActive := false;
      return SetupFailed;
    }
    bot.signupView := true;
    if setup == FailsAfterView {
      bot.signupActive := false;
      return SetupFailed;
    }
    outcome := QueueOpened;
  }

  datatype CancelOutcome = NoSignup | CleanupRaises | Cancelled

  /** cancel as written. Refused when no sign-up is active. When a view is stored it calls
      cleanup() on it, a method SignupView does not have, so the command stops with an
      AttributeError and nothing changes; only a sign-up without a view is cancelled. */
  method CancelAsWritten(bot: Bot) returns (outcome: CancelOutcome)
    modifies bot`queue, bot`signupActive, bot`signupView
    ensures outcome == NoSignup <==> !old(bot.signupActive)
    ensures outcome == CleanupRaises <==> old(bot.signupActive) && old(bot.signupView)
    ensures outcome != Cancelled ==> unchanged(bot)
    ensures outcome == Cancelled ==> bot.queue == [] && !bot.signupActive && !bot.signupView
  {
    if !bot.signupActive {
      return NoSignup;
    }
    if bot.signupView {
      return CleanupRaises;
    }
    bot.queue := [];
    bot.signupActive := false;
    outcome := Cancelled;
  }

  /** A sign-up that opens normally cannot be cancelled as written: after one linked user joins
      through the Sign Up button, the view is still stored, so cancel raises and the sign-up stays
      active with its queue. */
  method SignupThenCancelAsWritten(mmr: map<Key, Record>, userId: nat, userName: string, tag: string)
    returns (outcome: CancelOutcome, active: bool, queued: seq<Player>)
    ensures outcome == CleanupRaises && active && queued == [Player(IntKey(userId), userName)]
  {
    var bot := new Bot(mmr);
    var users := [UserDoc(userId, userName, tag)];
    var started := Signup(bot, mmr, Opens);
    var joined := SignUp(bot, users, userId, userName);
    outcome := CancelAsWritten(bot);
    active, queued := bot.signupActive, bot.queue;
  }

  /** cancel as evidently intended: refused when no sign-up is active; otherwise the view is
      dropped, the queue is emptied and sign-up closes. Captains, teams, mode and map are left as
      they were. */
  method Cancel(bot: Bot) returns (cancelled: bool)
    modifies bot`queue, bot`signupActive, bot`signupView
    ensures cancelled == old(bot.signupActive)
    ensures !cancelled ==> unchanged(bot)
    ensures cancelled ==> bot.queue == [] && !bot.signupActive && !bot.signupView
  {
    if !bot.signupActive {
      return false;
    }
    bot.signupView := false;
    bot.queue := [];
    bot.signupActive := false;
    cancelled := true;
  }

  /** The intended cancel closes a sign-up that opened normally, after one linked user joined. */
  method SignupThenCancel(mmr: map<Key, Record>, userId: nat, userName: string, tag: string)
    returns (cancelled: bool, active: bool, queued: seq<Player>)
    ensures cancelled && !active && queued == []
  {
    var bot := new Bot(mmr);
    var users := [UserDoc(userId, userName, tag)];
    var started := Signup(bot, mmr, Opens);
    var joined := SignUp(bot, users, userId, userName);
    cancelled := Cancel(bot);
    active, queued := bot.signupActive, bot.queue;
  }

  // ---------------------------------------------------------------------------
  // setcaptain1 / setcaptain2
  // ---------------------------------------------------------------------------

  /** The queued player's linked account is this Riot id, compared lower-cased. */
  predicate LinkedAs(users: seq<UserDoc>, p: Player, id: RiotId) {
    var doc := FindUserById(users, Str(p.id));
    doc.Some? && Lower(doc.value.name) == Lower(id.name) && Lower(doc.value.tag) == Lower(id.tag)
  }

  /** The first queued player linked as id. */
  function QueuedAs(queue: seq<Player>, users: seq<UserDoc>, id: RiotId): (r: Option<Player>)
    ensures r.None? <==> forall p :: p in queue ==> !LinkedAs(users, p, id)
    ensures r.Some? ==> r.value in queue && LinkedAs(users, r.value, id)
  {
    if queue == [] then None
    else if LinkedAs(users, queue[0], id) then Some(queue[0])
    else
      assert queue == [queue[0]] + queue[1..];
      QueuedAs(queue[1..], users, id)
  }

  /** The player found is the first queued player linked as id. */
  lemma {:induction false} QueuedAsIsFirst(queue: seq<Player>, users: seq<UserDoc>, id: RiotId, j: nat)
    requires j < |queue| && LinkedAs(users, queue[j], id)
    requires forall k :: 0 <= k < j ==> !LinkedAs(users, queue[k], id)
    ensures QueuedAs(queue, users, id) == Some(queue[j])
  {
    if j > 0 {
      var tail := queue[1..];
      assert !LinkedAs(users, queue[0], id);
      assert QueuedAs(queue, users, id) == QueuedAs(tail, users, id);
      forall k | 0 <= k < j - 1
        ensures !LinkedAs(users, tail[k], id)
      {
        assert tail[k] == queue[k + 1];
      }
      QueuedAsIsFirst(tail, users, id, j - 1);
    }
  }

  /** The search loop of setcaptain1/2: walk the queue, stop at the first match. */
  method FindInQueue(queue: seq<Player>, users: seq<UserDoc>, id: RiotId) returns (found: Option<Player>)
    ensures found == QueuedAs(queue, users, id)
    ensures found.Some? ==> found.value in queue && LinkedAs(users, found.value, id)
  {
    found := None;
    var i := 0;
    while i < |queue|
      invariant 0 <= i <= |queue|
      invariant QueuedAs(queue, users, id) == QueuedAs(queue[i..], users, id)
    {
      assert queue[i..][1..] == queue[i + 1..];
      if LinkedAs(users, queue[i], id) {
        found := Some(queue[i]);
        return;
      }
      i := i + 1;
    }
  }

  datatype Slot = First | Second

  /** The captain held in the slot that is not being set. */
  function OtherCaptain(bot: Bot, slot: Slot): Option<Player>
    reads bot
  {
    if slot == First then bot.captain2 else bot.captain1
  }

  datatype CaptainOutcome = BadFormat | NotQueued | TakenByOtherCaptain | CaptainSet(player: Player)

  /** setcaptain1 (slot First) and setcaptain2 (slot Second): parse Name#Tag, find the first
      queued player linked as that id, refuse if they hold the other slot, else take the slot.
      The two captains therefore never share an id. */
  method SetCaptain(bot: Bot, users: seq<UserDoc>, slot: Slot, input: string) returns (outcome: CaptainOutcome)
    modifies bot`captain1, bot`captain2
    ensures outcome == BadFormat <==> ParseRiotId(input).None?
    ensures outcome == NotQueued <==>
      ParseRiotId(input).Some? && QueuedAs(bot.queue, users, ParseRiotId(input).value).None?
    ensures outcome.CaptainSet? ==>
      && ParseRiotId(input).Some?
      && Some(outcome.player) == QueuedAs(bot.queue, users, ParseRiotId(input).value)
      && outcome.player in bot.queue
      && (if slot == First then bot.captain1 == Some(outcome.player) && bot.captain2 == old(bot.captain2)
          else bot.captain2 == Some(outcome.player) && bot.captain1 == old(bot.captain1))
      && bot.CaptainsDistinct()
    ensures outcome == TakenByOtherCaptain <==>
      && ParseRiotId(input).Some?
      && QueuedAs(bot.queue, users, ParseRiotId(input).value).Some?
      && old(OtherCaptain(bot, slot)).Some?
      && QueuedAs(bot.queue, users, ParseRiotId(input).value).value.id == old(OtherCaptain(bot, slot)).value.id
    ensures !outcome.CaptainSet? ==> unchanged(bot)
  {
    var parsed := ParseRiotId(input);
    if parsed.None? {
      return BadFormat;
    }
    var found := FindInQueue(bot.queue, users, parsed.value);
    if found.None? {
      return NotQueued;
    }
    var player := found.value;
    if slot == First {
      if bot.captain2.Some? && player.id == bot.captain2.value.id {
        return TakenByOtherCaptain;
      }
      bot.captain1 := Some(player);
    } else {
      if bot.captain1.Some? && player.id == bot.captain1.value.id {
        return TakenByOtherCaptain;
      }
      bot.captain2 := Some(player);
    }
    outcome := CaptainSet(player);
  }

  // ---------------------------------------------------------------------------
  // Automatic captains draft (the captains branch of `test`)
  // ---------------------------------------------------------------------------

  datatype Teams = Teams(team1: seq<Player>, team2: seq<Player>)

  /** Deal players alternately, the first to team1 (turn % 2 == 0). */
  function Alternate(players: seq<Player>): Teams {
    if players == [] then Teams([], [])
    else
      var n := |players| - 1;
      var d := Alternate(players[..n]);
      if n % 2 == 0 then Teams(d.team1 + [players[n]], d.team2) else Teams(d.team1, d.team2 + [players[n]])
  }

  /** team1 gets the players at even turns and team2 those at odd turns: sizes ceil(n/2), floor(n/2),
      and together they are the dealt players. */
  lemma {:induction false} AlternateShape(players: seq<Player>)
    ensures |Alternate(players).team1| == (|players| + 1) / 2
    ensures |Alternate(players).team2| == |players| / 2
    ensures multiset(Alternate(players).team1 + Alternate(players).team2) == multiset(players)
  {
    if players != [] {
      var n := |players| - 1;
      AlternateShape(players[..n]);
      assert players == players[..n] + [players[n]];
    }
  }

  /** [p for p in queue if p not in [captain1, captain2]] */
  function Remaining(queue: seq<Player>, c1: Player, c2: Player): (r: seq<Player>)
    ensures forall p :: p in r <==> p in queue && p != c1 && p != c2
  {
    if queue == [] then []
    else (if queue[0] == c1 || queue[0] == c2 then [] else [queue[0]]) + Remaining(queue[1..], c1, c2)
  }

  /** The tail of a queue without repeated ids has none either, and does not hold its head. */
  lemma TailOfDistinct(queue: seq<Player>)
    requires NoDuplicateIds(queue) && queue != []
    ensures NoDuplicateIds(queue[1..]) && queue[0] !in queue[1..]
  {
    var tail := queue[1..];
    forall j | 0 <= j < |tail|
      ensures tail[j] != queue[0]
    {
      assert tail[j] == queue[j + 1];
    }
    assert forall i :: 0 <= i < |tail| ==> tail[i] == queue[i + 1];
  }

  /** With no repeated ids, removing two different queued players removes exactly those two. */
  lemma {:induction false} RemainingCount(queue: seq<Player>, c1: Player, c2: Player)
    requires NoDuplicateIds(queue) && c1 != c2
    ensures multiset(Remaining(queue, c1, c2)) + multiset(if c1 in queue then [c1] else [])
      + multiset(if c2 in queue then [c2] else []) == multiset(queue)
  {
    if queue != [] {
      var tail := queue[1..];
      assert queue == [queue[0]] + tail;
      TailOfDistinct(queue);
      RemainingCount(tail, c1, c2);
    }
  }

  /** In a queue without repeated ids, each entry occurs once. */
  lemma {:induction false} CountOfDistinct(queue: seq<Player>, i: nat)
    requires NoDuplicateIds(queue) && i < |queue|
    ensures multiset(queue)[queue[i]] == 1
  {
    var tail := queue[1..];
    assert queue == [queue[0]] + tail;
    TailOfDistinct(queue);
    if i > 0 {
      CountOfDistinct(tail, i - 1);
      assert tail[i - 1] == queue[i];
    }
  }

  lemma RemainingRated(queue: seq<Player>, mmr: map<Key, Record>, c1: Player, c2: Player)
    requires AllRated(queue, mmr)
    ensures AllRated(Remaining(queue, c1, c2), mmr)
  {
    var rest := Remaining(queue, c1, c2);
    forall i | 0 <= i < |rest| ensures rest[i].id in mmr {
      RatedMember(queue, mmr, rest[i]);
    }
  }

  /** What the captains branch of `test` produces. */
  datatype Draft = Draft(captain1: Player, captain2: Player, team1: seq<Player>, team2: seq<Player>)

  /** Captains are the first two of the queue sorted by descending MMR; the others, sorted the
      same way, are dealt alternately starting with team1, behind their captain. */
  function CaptainsDraft(queue: seq<Player>, mmr: map<Key, Record>): Draft
    requires |queue| >= 2 && AllRated(queue, mmr)
  {
    var sorted := SortDesc(queue, mmr);
    var c1, c2 := sorted[0], sorted[1];
    var rest := Remaining(queue, c1, c2);
    RemainingRated(queue, mmr, c1, c2);
    var dealt := Alternate(SortDesc(rest, mmr));
    Draft(c1, c2, [c1] + dealt.team1, [c2] + dealt.team2)
  }

  /** Captain 1 has the highest MMR in the queue and captain 2 the highest among the others. */
  lemma CaptainsAreTopRated(queue: seq<Player>, mmr: map<Key, Record>)
    requires |queue| >= 2 && AllRated(queue, mmr)
    ensures var d := CaptainsDraft(queue, mmr);
      && d.captain1 in queue && d.captain2 in queue
      && d.captain1.id in mmr && d.captain2.id in mmr
      && (forall i :: 0 <= i < |queue| ==> MmrOf(mmr, queue[i]) <= MmrOf(mmr, d.captain1))
      && (forall i :: 0 <= i < |queue| && queue[i] != d.captain1 ==> MmrOf(mmr, queue[i]) <= MmrOf(mmr, d.captain2))
  {
    var sorted := SortDesc(queue, mmr);
    assert sorted[0] in multiset(queue) && sorted[1] in multiset(queue);
    forall i | 0 <= i < |queue|
      ensures MmrOf(mmr, queue[i]) <= MmrOf(mmr, sorted[0])
      ensures queue[i] != sorted[0] ==> MmrOf(mmr, queue[i]) <= MmrOf(mmr, sorted[1])
    {
      assert queue[i] in multiset(sorted);
      var j :| 0 <= j < |sorted| && sorted[j] == queue[i];
    }
  }

  /** With distinct ids the two players at the top of the ranking are different players with
      different ids. */
  lemma DistinctCaptains(queue: seq<Player>, mmr: map<Key, Record>)
    requires |queue| >= 2 && NoDuplicateIds(queue) && AllRated(queue, mmr)
    ensures var sorted := SortDesc(queue, mmr);
      sorted[0] in queue && sorted[1] in queue && sorted[0] != sorted[1] && sorted[0].id != sorted[1].id
  {
    var sorted := SortDesc(queue, mmr);
    assert sorted[0] in multiset(queue) && sorted[1] in multiset(queue);
    var i :| 0 <= i < |queue| && queue[i] == sorted[0];
    var j :| 0 <= j < |queue| && queue[j] == sorted[1];
    CountOfDistinct(queue, i);
    HeadOnceDiffersFromNext(sorted);
    assert i != j;
  }

  /** When the first entry occurs only once, the second one is a different entry. */
  lemma HeadOnceDiffersFromNext(s: seq<Player>)
    requires |s| >= 2 && multiset(s)[s[0]] == 1
    ensures s[0] != s[1]
  {
    assert s == s[..2] + s[2..];
    assert multiset(s[..2]) <= multiset(s);
    assert s[..2] == [s[0], s[1]];
  }

  /** With ten queued players of distinct ids, eight remain once the captains are taken out. */
  lemma EightRemain(queue: seq<Player>, mmr: map<Key, Record>)
    requires |queue| == QueueSize && NoDuplicateIds(queue) && AllRated(queue, mmr)
    ensures var sorted := SortDesc(queue, mmr);
      |Remaining(queue, sorted[0], sorted[1])| == 8
  {
    var sorted := SortDesc(queue, mmr);
    var c1, c2 := sorted[0], sorted[1];
    DistinctCaptains(queue, mmr);
    RemainingCount(queue, c1, c2);
    var rest := Remaining(queue, c1, c2);
    assert multiset(rest) + multiset{c1, c2} == multiset(queue);
    assert |multiset(rest)| + 2 == |multiset(queue)|;
  }

  /** With ten queued players of distinct ids, the captains differ, each team has 5 players led
      by its captain, and together the teams are the queue. */
  lemma CaptainsDraftFiveEach(queue: seq<Player>, mmr: map<Key, Record>)
    requires |queue| == QueueSize && NoDuplicateIds(queue) && AllRated(queue, mmr)
    ensures var d := CaptainsDraft(queue, mmr);
      && d.captain1.id != d.captain2.id
      && |d.team1| == 5 && |d.team2| == 5
      && d.team1[0] == d.captain1 && d.team2[0] == d.captain2
      && multiset(d.team1 + d.team2) == multiset(queue)
  {
    var sorted := SortDesc(queue, mmr);
    var c1, c2 := sorted[0], sorted[1];
    EightRemain(queue, mmr);
    DistinctCaptains(queue, mmr);
    RemainingCount(queue, c1, c2);
    var rest := Remaining(queue, c1, c2);
    RemainingRated(queue, mmr, c1, c2);
    var sortedRest := SortDesc(rest, mmr);
    var d := CaptainsDraft(queue, mmr);
    assert d == Draft(c1, c2, [c1] + Alternate(sortedRest).team1, [c2] + Alternate(sortedRest).team2);
    DealtBehindCaptains(c1, c2, sortedRest);
  }

  /** Dealing eight players behind two captains gives two teams of five that together hold the
      captains and the dealt players. */
  lemma DealtBehindCaptains(c1: Player, c2: Player, players: seq<Player>)
    requires |players| == 8
    ensures var t := Alternate(players);
      |[c1] + t.team1| == 5 && |[c2] + t.team2| == 5 &&
      multiset(([c1] + t.team1) + ([c2] + t.team2)) == multiset{c1, c2} + multiset(players)
  {
    AlternateShape(players);
  }

  /** The captains assignment in `test`: pick captains from the sorted queue, then the turn loop. */
  method AutoDraft(queue: seq<Player>, mmr: map<Key, Record>) returns (draft: Draft)
    requires |queue| >= 2 && AllRated(queue, mmr)
    ensures draft == CaptainsDraft(queue, mmr)
  {
    var sortedPlayers := SortDesc(queue, mmr);
    var captain1, captain2 := sortedPlayers[0], sortedPlayers[1];
    var remainingPlayers := Remaining(queue, captain1, captain2);
    RemainingRated(queue, mmr, captain1, captain2);
    remainingPlayers := SortDesc(remainingPlayers, mmr);
    var team1, team2 := DealTurns(captain1, captain2, remainingPlayers);
    draft := Draft(captain1, captain2, team1, team2);
  }

  /** The turn loop of the captains draft: even turns to team1, odd turns to team2. */
  method DealTurns(captain1: Player, captain2: Player, players: seq<Player>) returns (team1: seq<Player>, team2: seq<Player>)
    ensures team1 == [captain1] + Alternate(players).team1
    ensures team2 == [captain2] + Alternate(players).team2
  {
    team1, team2 := [captain1], [captain2];
    var turn := 0;
    while turn < |players|
      invariant 0 <= turn <= |players|
      invariant team1 == [captain1] + Alternate(players[..turn]).team1
      invariant team2 == [captain2] + Alternate(players[..turn]).team2
    {
      assert players[..turn + 1][..turn] == players[..turn];
      var player := players[turn];
      if turn % 2 == 0 {
        team1 := team1 + [player];
      } else {
        team2 := team2 + [player];
      }
      turn := turn + 1;
    }
    assert players[..turn] == players;
  }

  /** The bot side of the captains branch: store the captains and the teams. */
  method AssignCaptainsTeams(bot: Bot)
    requires |bot.queue| >= 2 && bot.QueueRated()
    modifies bot`captain1, bot`captain2, bot`team1, bot`team2
    ensures bot.captain1.Some? && bot.captain2.Some?
    ensures Draft(bot.captain1.value, bot.captain2.value, bot.team1, bot.team2) == CaptainsDraft(bot.queue, bot.playerMmr)
    ensures |bot.queue| == QueueSize && NoDuplicateIds(bot.queue) ==> bot.CaptainsDistinct()
  {
    var queue, mmr := bot.queue, bot.playerMmr;
    assert AllRated(queue, mmr);
    var draft := AutoDraft(queue, mmr);
    if |queue| == QueueSize && NoDuplicateIds(queue) {
      CaptainsDraftFiveEach(queue, mmr);
    }
    bot.captain1 := Some(draft.captain1);
    bot.captain2 := Some(draft.captain2);
    bot.team1 := draft.team1;
    bot.team2 := draft.team2;
    assert bot.queue == queue && bot.playerMmr == mmr;
  }
}
