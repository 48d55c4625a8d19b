// The map-pool vote (Competitive Maps / All Maps) and the polling loop that decides it.

module MapTypeVoteView {

  import opened BotState

  /** The two pools: globals.all_maps and globals.official_maps. */
  datatype Pool = AllMaps | CompetitiveMaps

  /** map_pool_votes together with voters. */
  datatype Tally = Tally(votes: map<Pool, nat>, voters: set<nat>)

  /** A click on one of the two buttons by a Discord user. */
  datatype Ballot = Ballot(userId: nat, pool: Pool)

  /** How a click was answered. */
  datatype PoolBallot = NotInQueue | AlreadyVoted | Counted

  predicate HasBothPools(t: Tally) {
    AllMaps in t.votes && CompetitiveMaps in t.votes
  }

  /** map_pool_votes[pool] */
  function Count(t: Tally, pool: Pool): nat
    requires HasBothPools(t)
  {
    match pool
    case AllMaps => t.votes[AllMaps]
    case CompetitiveMaps => t.votes[CompetitiveMaps]
  }

  /** Every recorded voter raised exactly one tally. */
  predicate Consistent(t: Tally) {
    HasBothPools(t) && t.votes[AllMaps] + t.votes[CompetitiveMaps] == |t.voters|
  }

  const NoVotes: Tally := Tally(map[CompetitiveMaps := 0, AllMaps := 0], {})

  /** One click: refused (no change) unless the raw user id is queued and has not voted yet;
      otherwise the pool's tally goes up by one and the voter is recorded. */
  function Cast(t: Tally, queue: seq<Player>, b: Ballot): (r: Tally)
    requires HasBothPools(t)
    ensures HasBothPools(r)
    ensures IntKey(b.userId) !in Ids(queue) || b.userId in t.voters ==> r == t
    ensures IntKey(b.userId) in Ids(queue) && b.userId !in t.voters ==>
      && Count(r, b.pool) == Count(t, b.pool) + 1
      && (forall q :: q != b.pool ==> Count(r, q) == Count(t, q))
      && r.voters == t.voters + {b.userId}
    ensures Consistent(t) ==> Consistent(r)
  {
    if IntKey(b.userId) !in Ids(queue) || b.userId in t.voters then t
    else Tally(t.votes[b.pool := Count(t, b.pool) + 1], t.voters + {b.userId})
  }

  /** The clicks of one batch, in order. */
  function CastAll(t: Tally, queue: seq<Player>, batch: seq<Ballot>): (r: Tally)
    requires HasBothPools(t)
    ensures HasBothPools(r)
    ensures Consistent(t) ==> Consistent(r)
  {
    if batch == [] then t
    else Cast(CastAll(t, queue, batch[..|batch| - 1]), queue, batch[|batch| - 1])
  }

  /** The clicks that arrive while the loop sleeps after poll number count. */
  function Batch(arrivals: seq<seq<Ballot>>, count: nat): seq<Ballot> {
    if count < |arrivals| then arrivals[count] else []
  }

  const MaxPolls: nat := 50

  /** The checks at the top of each poll: All Maps above 4 first, then Competitive Maps above 4. */
  function MajorityPool(votes: map<Pool, nat>): (r: Option<Pool>)
    requires AllMaps in votes && CompetitiveMaps in votes
    ensures r == Some(AllMaps) <==> votes[AllMaps] > 4
    ensures r == Some(CompetitiveMaps) <==> votes[AllMaps] <= 4 && votes[CompetitiveMaps] > 4
  {
    if votes[AllMaps] > 4 then Some(AllMaps)
    else if votes[CompetitiveMaps] > 4 then Some(CompetitiveMaps)
    else None
  }

  /** The decision after the last poll: the strictly larger tally, a tie to the coin. */
  function TimeoutPool(votes: map<Pool, nat>, coin: bool): (r: Pool)
    requires AllMaps in votes && CompetitiveMaps in votes
    ensures votes[CompetitiveMaps] > votes[AllMaps] ==> r == CompetitiveMaps
    ensures votes[AllMaps] > votes[CompetitiveMaps] ==> r == AllMaps
    ensures votes[AllMaps] == votes[CompetitiveMaps] ==> (r == AllMaps <==> coin)
  {
    if votes[CompetitiveMaps] > votes[AllMaps] then CompetitiveMaps
    else if votes[AllMaps] > votes[CompetitiveMaps] then AllMaps
    else if coin then AllMaps else CompetitiveMaps
  }

  /** The outcome of the polling loop: the chosen pool, the number of polls that failed before
      the decision, and the tally it was decided on. */
  datatype Poll = Poll(chosen: Pool, polls: nat, tally: Tally)

  /** The loop of send_view from poll number count on. */
  function PollFrom(t: Tally, queue: seq<Player>, arrivals: seq<seq<Ballot>>, coin: bool, count: nat): (r: Poll)
    requires HasBothPools(t) && count <= MaxPolls
    decreases MaxPolls - count
    ensures HasBothPools(r.tally)
    ensures count <= r.polls <= MaxPolls
    ensures r.polls < MaxPolls ==> MajorityPool(r.tally.votes) == Some(r.chosen)
    ensures r.polls == MaxPolls ==> r.chosen == TimeoutPool(r.tally.votes, coin)
    ensures Consistent(t) ==> Consistent(r.tally)
  {
    if count == MaxPolls then Poll(TimeoutPool(t.votes, coin), MaxPolls, t)
    else
      match MajorityPool(t.votes)
      case Some(p) => Poll(p, count, t)
      case None => PollFrom(CastAll(t, queue, Batch(arrivals, count)), queue, arrivals, coin, count + 1)
  }

  /** A pool that already has a majority when a poll runs is chosen at once. */
  lemma MajorityDecidesAtOnce(t: Tally, queue: seq<Player>, arrivals: seq<seq<Ballot>>, coin: bool, count: nat)
    requires HasBothPools(t) && count < MaxPolls
    requires MajorityPool(t.votes).Some?
    ensures PollFrom(t, queue, arrivals, coin, count) == Poll(MajorityPool(t.votes).value, count, t)
  {
  }

  /** Without a majority the loop sleeps, takes in the next batch of clicks and polls again. */
  lemma NoMajorityPollsAgain(t: Tally, queue: seq<Player>, arrivals: seq<seq<Ballot>>, coin: bool, count: nat)
    requires HasBothPools(t) && count < MaxPolls
    requires MajorityPool(t.votes).None?
    ensures PollFrom(t, queue, arrivals, coin, count) ==
      PollFrom(CastAll(t, queue, Batch(arrivals, count)), queue, arrivals, coin, count + 1)
  {
  }

  /** If no further clicks arrive and no pool has a majority, the loop runs out its 50 polls and
      decides on the tally as it stands; with 0-0 that is the coin. */
  lemma {:induction false} QuietPollsTimeOut(t: Tally, queue: seq<Player>, arrivals: seq<seq<Ballot>>, coin: bool, count: nat)
    requires HasBothPools(t) && count <= MaxPolls
    requires MajorityPool(t.votes).None?
    requires forall k :: count <= k < |arrivals| ==> arrivals[k] == []
    ensures PollFrom(t, queue, arrivals, coin, count) == Poll(TimeoutPool(t.votes, coin), MaxPolls, t)
    decreases MaxPolls - count
  {
    if count < MaxPolls {
      assert Batch(arrivals, count) == [];
      QuietPollsTimeOut(t, queue, arrivals, coin, count + 1);
    }
  }

  class MapTypeVote {
    var mapPoolVotes: map<Pool, nat>
    var voters: set<nat>
    const bot: Bot

    function State(): Tally
      reads this
    {
      Tally(mapPoolVotes, voters)
    }

    ghost predicate Valid()
      reads this
    {
      Consistent(State())
    }

    constructor (bot: Bot)
      ensures Valid() && this.bot == bot && State() == NoVotes
    {
      this.bot := bot;
      mapPoolVotes := map[CompetitiveMaps := 0, AllMaps := 0];
      voters := {};
    }

    /** competitive_callback / all_maps_callback: the raw user id must be queued and must not
        have voted yet. */
    method Vote(pool: Pool, userId: nat) returns (outcome: PoolBallot)
      requires Valid()
      modifies this`mapPoolVotes, this`voters
      ensures Valid()
      ensures State() == Cast(old(State()), bot.queue, Ballot(userId, pool))
      ensures outcome == NotInQueue <==> IntKey(userId) !in Ids(bot.queue)
      ensures outcome == AlreadyVoted <==> IntKey(userId) in Ids(bot.queue) && userId in old(voters)
    {
      if IntKey(userId) !in Ids(bot.queue) {
        return NotInQueue;
      }
      if userId in voters {
        return AlreadyVoted;
      }
      mapPoolVotes := mapPoolVotes[pool := Count(State(), pool) + 1];
      voters := voters + {userId};
      outcome := Counted;
    }

    /** Clicks reaching the callbacks one after another. */
    method Deliver(batch: seq<Ballot>)
      requires Valid()
      modifies this`mapPoolVotes, this`voters
      ensures Valid()
      ensures State() == CastAll(old(State()), bot.queue, batch)
    {
      var j := 0;
      while j < |batch|
        invariant 0 <= j <= |batch|
        invariant Valid()
        invariant State() == CastAll(old(State()), bot.queue, batch[..j])
      {
        assert batch[..j + 1][..j] == batch[..j];
        var _ := Vote(batch[j].pool, batch[j].userId);
        j := j + 1;
      }
      assert batch[..j] == batch;
    }

    /** One pass of the decision loop: the majority checks, then the sleep during which the clicks
        of arrivals[count] reach the callbacks. Returns the pool decided by the checks, if any. */
    method PollOnce(arrivals: seq<seq<Ballot>>, coin: bool, count: nat) returns (decided: Option<Pool>)
      requires Valid() && count < MaxPolls
      modifies this`mapPoolVotes, this`voters
      ensures Valid()
      ensures decided == MajorityPool(old(State()).votes)
      ensures decided.Some? ==> State() == old(State())
      ensures PollFrom(old(State()), bot.queue, arrivals, coin, count) ==
        if decided.Some? then Poll(decided.value, count, State())
        else PollFrom(State(), bot.queue, arrivals, coin, count + 1)
    {
      if mapPoolVotes[AllMaps] > 4 {
        MajorityDecidesAtOnce(State(), bot.queue, arrivals, coin, count);
        return Some(AllMaps);
      } else if mapPoolVotes[CompetitiveMaps] > 4 {
        MajorityDecidesAtOnce(State(), bot.queue, arrivals, coin, count);
        return Some(CompetitiveMaps);
      }
      NoMajorityPollsAgain(State(), bot.queue, arrivals, coin, count);
      Deliver(Batch(arrivals, count));
      decided := None;
    }

    /** The decision loop of send_view. The clicks in arrivals[k] reach the callbacks while the
        loop sleeps after its k-th poll (the sleep is where the event loop runs them); coin is
        random.choice for a tie. Returns the chosen pool and how many polls failed first. */
    method SendView(arrivals: seq<seq<Ballot>>, coin: bool) returns (chosen: Pool, polls: nat)
      requires Valid()
      modifies this`mapPoolVotes, this`voters
      ensures Valid()
      ensures Poll(chosen, polls, State()) == PollFrom(old(State()), bot.queue, arrivals, coin, 0)
      ensures polls <= MaxPolls
    {
      var count := 0;
      while count < MaxPolls
        invariant 0 <= count <= MaxPolls
        invariant Valid()
        invariant PollFrom(State(), bot.queue, arrivals, coin, count) == PollFrom(old(State()), bot.queue, arrivals, coin, 0)
      {
        var decided := PollOnce(arrivals, coin, count);
        if decided.Some? {
          return decided.value, count;
        }
        count := count + 1;
      }
      if mapPoolVotes[CompetitiveMaps] > mapPoolVotes[AllMaps] {
        chosen := CompetitiveMaps;
      } else if mapPoolVotes[AllMaps] > mapPoolVotes[CompetitiveMaps] {
        chosen := AllMaps;
      } else {
        chosen := if coin then AllMaps else CompetitiveMaps;
      }
      polls := count;
    }
  }
}
