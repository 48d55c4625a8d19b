// The state the bot keeps for the one live 10-man match, and the value types it is built from.

module BotState {

  datatype Option<+T> = None | Some(value: T)

  /** A player id as the Python code holds it: an int (a Discord user id) or a str.
      The two never compare equal, so a lookup by the wrong kind of id finds nothing. */
  datatype Key = IntKey(n: nat) | StrKey(s: string)

  /** A queue entry, the dict {"id": ..., "name": ...}. */
  datatype Player = Player(id: Key, name: string)

  /** The part of a rating record this model follows: {"mmr", "wins", "losses"}. */
  datatype Record = Record(mmr: int, wins: int, losses: int)

  const DefaultMmr: int := 1000
  const DefaultRecord: Record := Record(DefaultMmr, 0, 0)
  const QueueSize: nat := 10

  datatype Mode = Balanced | Captains

  /** A document of the `users` collection. Its discord_id field holds str() of a Discord id. */
  datatype UserDoc = UserDoc(discordId: nat, name: string, tag: string)

  /** Decimal digits of n, as Python's str() writes a non-negative int. */
  function DecimalString(n: nat): (s: string)
    ensures |s| >= 1
    ensures forall i :: 0 <= i < |s| ==> '0' <= s[i] <= '9'
  {
    if n < 10 then [Digit(n)] else DecimalString(n / 10) + [Digit(n % 10)]
  }

  function Digit(d: nat): char
    requires d < 10
  {
    "0123456789"[d]
  }

  /** str(player["id"]) */
  function Str(k: Key): string {
    match k
    case IntKey(n) => DecimalString(n)
    case StrKey(s) => s
  }

  /** [p["id"] for p in queue] */
  function Ids(queue: seq<Player>): (ids: seq<Key>)
    ensures |ids| == |queue|
    ensures forall i :: 0 <= i < |queue| ==> ids[i] == queue[i].id
  {
    seq(|queue|, i requires 0 <= i < |queue| => queue[i].id)
  }

  predicate NoDuplicateIds(queue: seq<Player>) {
    forall i, j :: 0 <= i < j < |queue| ==> queue[i].id != queue[j].id
  }

  /** users.find_one({"discord_id": id}): the first document whose discord_id is the string id. */
  function FindUserById(users: seq<UserDoc>, id: string): (r: Option<UserDoc>)
    ensures r.Some? <==> exists i :: 0 <= i < |users| && DecimalString(users[i].discordId) == id
    ensures r.Some? ==> r.value in users && DecimalString(r.value.discordId) == id
  {
    if users == [] then None
    else if DecimalString(users[0].discordId) == id then Some(users[0])
    else FindUserById(users[1..], id)
  }

  /** The bot object's match fields (initialised in BotCommands.__init__). */
  class Bot {
    var queue: seq<Player>
    var playerMmr: map<Key, Record>
    var playerNames: map<Key, string>
    var signupActive: bool
    var matchOngoing: bool
    var matchNotReported: bool
    var captain1: Option<Player>
    var captain2: Option<Player>
    var team1: seq<Player>
    var team2: seq<Player>
    var chosenMode: Option<Mode>
    var selectedMap: Option<string>
    /** Whether signup_view holds a SignupView (as opposed to None). */
    var signupView: bool

    /** Every queued player has a rating record (sign-up creates one). */
    predicate QueueRated()
      reads this
    {
      forall i :: 0 <= i < |queue| ==> queue[i].id in playerMmr
    }

    /** The two captain slots never hold the same id. */
    predicate CaptainsDistinct()
      reads this
    {
      captain1.Some? && captain2.Some? ==> captain1.value.id != captain2.value.id
    }

    constructor (mmr: map<Key, Record>)
      ensures playerMmr == mmr && playerNames == map[]
      ensures queue == [] && team1 == [] && team2 == []
      ensures captain1 == None && captain2 == None
      ensures chosenMode == None && selectedMap == None
      ensures !signupActive && !matchOngoing && !matchNotReported && !signupView
    {
      signupView := false;
      queue := [];
      playerMmr := mmr;
      playerNames := map[];
      signupActive := false;
      matchOngoing := false;
      matchNotReported := false;
      captain1 := None;
      captain2 := None;
      team1 := [];
      team2 := [];
      chosenMode := None;
      selectedMap := None;
    }
  }
}
