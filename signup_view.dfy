// The sign-up view's buttons: joining and leaving the queue, and the helper that appends a
// player unconditionally.

module SignupView {

  import opened BotState

  /** [p for p in queue if p["id"] != id]: the queue without any entry carrying that id. */
  function Without(queue: seq<Player>, id: Key): (r: seq<Player>)
    ensures |r| <= |queue|
    ensures forall i :: 0 <= i < |r| ==> r[i].id != id
    ensures forall p :: p in r <==> p in queue && p.id != id
  {
    if queue == [] then []
    else (if queue[0].id == id then [] else [queue[0]]) + Without(queue[1..], id)
  }

  /** Leaving keeps the other players in their order: filtering distributes over concatenation. */
  lemma {:induction false} WithoutKeepsOrder(a: seq<Player>, b: seq<Player>, id: Key)
    ensures Without(a + b, id) == Without(a, id) + Without(b, id)
  {
    if a != [] {
      var head := if a[0].id == id then [] else [a[0]];
      assert (a + b)[0] == a[0] && (a + b)[1..] == a[1..] + b;
      assert Without(a + b, id) == head + Without(a[1..] + b, id);
      WithoutKeepsOrder(a[1..], b, id);
      assert Without(a, id) == head + Without(a[1..], id);
    } else {
      assert a + b == b;
    }
  }

  /** Leaving when not queued changes nothing. */
  lemma {:induction false} WithoutAbsent(queue: seq<Player>, id: Key)
    requires id !in Ids(queue)
    ensures Without(queue, id) == queue
  {
    if queue != [] {
      assert queue[0].id == Ids(queue)[0];
      assert Ids(queue[1..]) == Ids(queue)[1..];
      WithoutAbsent(queue[1..], id);
    }
  }

  /** Leaving twice is leaving once. */
  lemma WithoutIdempotent(queue: seq<Player>, id: Key)
    ensures Without(Without(queue, id), id) == Without(queue, id)
  {
    var r := Without(queue, id);
    assert forall i :: 0 <= i < |r| ==> Ids(r)[i] != id;
    WithoutAbsent(r, id);
  }

  /** Exactly the entries with that id are dropped, each one once per occurrence. */
  lemma {:induction false} WithoutCount(queue: seq<Player>, id: Key, p: Player)
    ensures multiset(Without(queue, id))[p] == if p.id == id then 0 else multiset(queue)[p]
  {
    if queue != [] {
      assert queue == [queue[0]] + queue[1..];
      WithoutCount(queue[1..], id, p);
    }
  }

  /** Filtering a queue without duplicate ids leaves one without duplicate ids. */
  lemma {:induction false} WithoutKeepsNoDuplicates(queue: seq<Player>, id: Key)
    requires NoDuplicateIds(queue)
    ensures NoDuplicateIds(Without(queue, id))
  {
    if queue != [] {
      var tail := queue[1..];
      assert NoDuplicateIds(tail) by {
        assert forall i :: 0 <= i < |tail| ==> tail[i] == queue[i + 1];
      }
      WithoutKeepsNoDuplicates(tail, id);
      var rest := Without(tail, id);
      forall i | 0 <= i < |rest|
        ensures rest[i].id != queue[0].id
      {
        assert rest[i] in tail;
        var j :| 0 <= j < |tail| && tail[j] == rest[i];
        assert tail[j] == queue[j + 1];
      }
    }
  }

  /** How a click on "Sign Up" was answered. */
  datatype SignUpOutcome = NotLinked | AlreadyQueued | Added(queueFull: bool)

  /** sign_up_callback. Only a user with a `users` document may join, and only once; the new
      entry is appended, a default rating record is created if the id has none, and when the
      append makes the queue exactly 10 long sign-up closes and the mode vote starts. There is no
      other capacity check: the button is not disabled and is not guarded by signup_active. */
  method SignUp(bot: Bot, users: seq<UserDoc>, userId: nat, userName: string) returns (outcome: SignUpOutcome)
    modifies bot`queue, bot`playerMmr, bot`playerNames, bot`signupActive
    ensures outcome == NotLinked <==> FindUserById(users, DecimalString(userId)).None?
    ensures outcome == AlreadyQueued <==>
      FindUserById(users, DecimalString(userId)).Some? && IntKey(userId) in Ids(old(bot.queue))
    ensures !outcome.Added? ==> unchanged(bot)
    ensures outcome.Added? ==>
      && bot.queue == old(bot.queue) + [Player(IntKey(userId), userName)]
      && bot.playerMmr == (if IntKey(userId) in old(bot.playerMmr) then old(bot.playerMmr)
                           else old(bot.playerMmr)[IntKey(userId) := DefaultRecord])
      && bot.playerNames == old(bot.playerNames)[IntKey(userId) := userName]
      && outcome.queueFull == (|bot.queue| == QueueSize)
      && bot.signupActive == (old(bot.signupActive) && !outcome.queueFull)
      && bot.matchOngoing == old(bot.matchOngoing) && bot.matchNotReported == old(bot.matchNotReported)
      && bot.captain1 == old(bot.captain1) && bot.captain2 == old(bot.captain2)
      && bot.team1 == old(bot.team1) && bot.team2 == old(bot.team2)
      && bot.chosenMode == old(bot.chosenMode) && bot.selectedMap == old(bot.selectedMap)
      && bot.signupView == old(bot.signupView)
    ensures NoDuplicateIds(old(bot.queue)) ==> NoDuplicateIds(bot.queue)
    ensures old(bot.QueueRated()) ==> bot.QueueRated()
  {
    var id := IntKey(userId);
    if FindUserById(users, DecimalString(userId)).None? {
      return NotLinked;
    }
    if id in Ids(bot.queue) {
      return AlreadyQueued;
    }
    bot.queue := bot.queue + [Player(id, userName)];
    if id !in bot.playerMmr {
      bot.playerMmr := bot.playerMmr[id := DefaultRecord];
    }
    bot.playerNames := bot.playerNames[id := userName];
    var full := |bot.queue| == QueueSize;
    if full {
      bot.signupActive := false;
    }
    outcome := Added(full);
  }

  /** leave_queue_callback: rebuild the queue without the user's entries. */
  method LeaveQueue(bot: Bot, userId: nat)
    modifies bot`queue
    ensures bot.queue == Without(old(bot.queue), IntKey(userId))
    ensures NoDuplicateIds(old(bot.queue)) ==> NoDuplicateIds(bot.queue)
    ensures old(bot.QueueRated()) ==> bot.QueueRated()
  {
    if NoDuplicateIds(bot.queue) {
      WithoutKeepsNoDuplicates(bot.queue, IntKey(userId));
    }
    bot.queue := Without(bot.queue, IntKey(userId));
  }

  /** add_player_to_queue: append with no check at all. */
  method AddPlayerToQueue(bot: Bot, player: Player)
    modifies bot`queue
    ensures bot.queue == old(bot.queue) + [player]
    ensures |bot.queue| == |old(bot.queue)| + 1
  {
    bot.queue := bot.queue + [player];
  }
}
