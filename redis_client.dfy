/** The Redis server as the DAOs see it through go-redis: string keys with an
    expiry, sorted sets and sets. A pipeline is a list of commands applied in
    order by one Exec; when the server cannot be reached nothing is applied. */
module RedisClient {
  import opened Wrappers
  import opened Models

  /** A JSON payload as produced by json.Marshal, tagged by the record it encodes,
      or any other text stored under a key. */
  datatype Payload =
    | PostJson(detail: PostDetail)
    | UserJson(user: User)
    | CommunityJson(community: CommunityDetail)
    | Text(text: string)

  datatype Entry = Entry(payload: Payload, expiresAt: int)

  datatype State = State(
    strings: map<string, Entry>,
    zsets: map<string, map<string, int>>,
    sets: map<string, set<string>>)

  datatype Cmd =
    | SetCmd(key: string, payload: Payload, ttl: nat)      // SET key value EX ttl
    | DelCmd(key: string)                                  // DEL key
    | ZAddCmd(key: string, member: string, score: int)    // ZADD key score member
    | ZIncrByCmd(key: string, member: string, delta: int) // ZINCRBY key delta member
    | ZRemCmd(key: string, member: string)                // ZREM key member
    | SAddCmd(key: string, member: string)                // SADD key member
    | SetNXCmd(key: string, payload: Payload, ttl: nat)    // SET key value NX EX ttl

  /** The members of a sorted set; a missing key is an empty set. */
  function ZSet(s: State, key: string): map<string, int> {
    if key in s.zsets then s.zsets[key] else map[]
  }

  /** The effect of one command issued at time `now` (seconds). */
  function Apply(s: State, now: int, c: Cmd): State {
    match c
    case SetCmd(k, p, ttl) => s.(strings := s.strings[k := Entry(p, now + ttl)])
    case DelCmd(k) => s.(strings := s.strings - {k})
    case ZAddCmd(k, m, score) => s.(zsets := s.zsets[k := ZSet(s, k)[m := score]])
    case ZIncrByCmd(k, m, d) =>
      var z := ZSet(s, k);
      s.(zsets := s.zsets[k := z[m := (if m in z then z[m] else 0) + d]])
    case ZRemCmd(k, m) => s.(zsets := s.zsets[k := ZSet(s, k) - {m}])
    case SAddCmd(k, m) =>
      s.(sets := s.sets[k := (if k in s.sets then s.sets[k] else {}) + {m}])
    case SetNXCmd(k, p, ttl) =>
      if Live(s, k, now).None? then s.(strings := s.strings[k := Entry(p, now + ttl)]) else s
  }

  /** The commands of a pipeline applied in order. */
  function ApplyAll(s: State, now: int, cmds: seq<Cmd>): State
    decreases |cmds|
  {
    if cmds == [] then s else Apply(ApplyAll(s, now, cmds[..|cmds| - 1]), now, cmds[|cmds| - 1])
  }

  /** A pipeline made only of SETs. */
  predicate AllSets(cmds: seq<Cmd>) {
    forall i :: 0 <= i < |cmds| ==> cmds[i].SetCmd?
  }

  /** The strings a pipeline of SETs leaves, each SET overwriting its key. */
  function WriteSets(strings: map<string, Entry>, now: int, cmds: seq<Cmd>): map<string, Entry>
    requires AllSets(cmds)
    decreases |cmds|
  {
    if cmds == [] then strings
    else
      var c := cmds[|cmds| - 1];
      WriteSets(strings, now, cmds[..|cmds| - 1])[c.key := Entry(c.payload, now + c.ttl)]
  }

  /** A pipeline of SETs changes only the strings, as WriteSets says. */
  lemma {:induction false} ApplyAllSets(s: State, now: int, cmds: seq<Cmd>)
    requires AllSets(cmds)
    ensures ApplyAll(s, now, cmds) == s.(strings := WriteSets(s.strings, now, cmds))
    decreases |cmds|
  {
    if cmds != [] {
      ApplyAllSets(s, now, cmds[..|cmds| - 1]);
    }
  }

  /** One more SET at the end of a pipeline of SETs overwrites its key last. */
  lemma WriteSetsSnoc(strings: map<string, Entry>, now: int, cmds: seq<Cmd>, key: string, p: Payload, ttl: nat)
    requires AllSets(cmds)
    ensures AllSets(cmds + [SetCmd(key, p, ttl)])
    ensures WriteSets(strings, now, cmds + [SetCmd(key, p, ttl)]) == WriteSets(strings, now, cmds)[key := Entry(p, now + ttl)]
  {
    assert (cmds + [SetCmd(key, p, ttl)])[..|cmds|] == cmds;
  }

  lemma ApplyTwo(s: State, now: int, a: Cmd, b: Cmd)
    ensures ApplyAll(s, now, [a, b]) == Apply(Apply(s, now, a), now, b)
  {
    assert [a, b][..1] == [a];
    assert [a][..0] == [];
    assert ApplyAll(s, now, [a]) == Apply(s, now, a);
  }

  lemma ApplyThree(s: State, now: int, a: Cmd, b: Cmd, c: Cmd)
    ensures ApplyAll(s, now, [a, b, c]) == Apply(Apply(Apply(s, now, a), now, b), now, c)
  {
    assert [a, b, c][..2] == [a, b];
    ApplyTwo(s, now, a, b);
  }

  /** GET at time `now`: the payload of an entry that has not yet expired. */
  function Live(s: State, key: string, now: int): Option<Payload> {
    if key in s.strings && now < s.strings[key].expiresAt then Some(s.strings[key].payload) else None
  }

  /** ZSCORE key member followed by .Val(): the score, where a missing member and a
      transport error both read as 0. */
  function ScoreRead(s: State, online: bool, key: string, member: string): (v: int)
    ensures !online ==> v == 0
    ensures online && member in ZSet(s, key) ==> v == ZSet(s, key)[member]
    ensures member !in ZSet(s, key) ==> v == 0
  {
    if online && member in ZSet(s, key) then ZSet(s, key)[member] else 0
  }

  /** A GET reply: a value, redis.Nil for a missing key, or a transport error. */
  datatype Reply = Value(payload: Payload) | Nil | Failure

  /** GET key at time `now` against state `s`. */
  function ReadReply(s: State, online: bool, key: string, now: int): (r: Reply)
    ensures r == Failure <==> !online
    ensures online ==> (r == Nil <==> Live(s, key, now) == None)
    ensures online && Live(s, key, now).Some? ==> r == Value(Live(s, key, now).value)
  {
    if !online then Failure
    else match Live(s, key, now)
      case Some(p) => Value(p)
      case None => Nil
  }

  class Client {
    var state: State
    var online: bool

    constructor (s: State, up: bool)
      ensures state == s && online == up
    {
      state := s;
      online := up;
    }

    /** GET key */
    function Get(key: string, now: int): Reply
      reads this
    {
      ReadReply(state, online, key, now)
    }

    /** MGET keys: one reply per key, in key order (None = nil), or a transport error. */
    function MGet(keys: seq<string>, now: int): (r: Option<seq<Option<Payload>>>)
      reads this
      ensures r.Some? <==> online
      ensures r.Some? ==> |r.value| == |keys|
      ensures r.Some? ==> forall i :: 0 <= i < |keys| ==> r.value[i] == Live(state, keys[i], now)
    {
      if !online then None
      else
        var s := state;
        Some(seq(|keys|, i requires 0 <= i < |keys| => Live(s, keys[i], now)))
    }

    /** ZSCORE key member, then .Val() */
    function ZScoreVal(key: string, member: string): int
      reads this
    {
      ScoreRead(state, online, key, member)
    }

    /** Pipeline(...).Exec() or TxPipeline(...).Exec(): all commands, or none and an error.
        An empty pipeline makes no round trip, so it cannot fail. */
    method Exec(cmds: seq<Cmd>, now: int) returns (err: Option<Error>)
      modifies this
      ensures online == old(online)
      ensures err == (if online || cmds == [] then None else Some(Backend))
      ensures state == (if online then ApplyAll(old(state), now, cmds) else old(state))
    {
      if cmds == [] {
        err := None;
      } else if online {
        state := ApplyAll(state, now, cmds);
        err := None;
      } else {
        err := Some(Backend);
      }
    }
  }
}
