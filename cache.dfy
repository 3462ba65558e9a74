/** The read-through cache of post details, users and communities in Redis
    (dao/redis/cache.go), its hit/miss/error counters and the stampede lock. */
module Cache {
  import opened Wrappers
  import opened Models
  import opened Keys
  import opened RedisClient

  // Expiry of each kind of entry, in seconds.
  const PostDetailCacheExpire: nat := 30 * 60
  const UserInfoCacheExpire: nat := 60 * 60
  const CommunityInfoCacheExpire: nat := 2 * 60 * 60
  const PostListCacheExpire: nat := 5 * 60
  const CacheLockExpire: nat := 10
  /** Retry interval of a reader that did not get the lock, in milliseconds. */
  const CacheLockRetryMillis: nat := 50

  /** One counter set per entity kind; the counters only grow. */
  class CacheStats {
    var hitCount: int
    var missCount: int
    var errorCount: int

    constructor ()
      ensures hitCount == 0 && missCount == 0 && errorCount == 0
    {
      hitCount, missCount, errorCount := 0, 0, 0;
    }

    /** Counts the outcome of one lookup: a hit, a miss or an error. */
    method Record<T>(r: CacheRead<T>)
      modifies this
      ensures hitCount == old(hitCount) + (if r.Hit? then 1 else 0)
      ensures missCount == old(missCount) + (if r.Miss? then 1 else 0)
      ensures errorCount == old(errorCount) + (if r.Failed? then 1 else 0)
    {
      match r
      case Hit(_) => hitCount := hitCount + 1;
      case Miss => missCount := missCount + 1;
      case Failed(_) => errorCount := errorCount + 1;
    }
  }

  /** The outcome of a cache lookup: the value; a miss (nil, nil in the source);
      or an error (nil, err). */
  datatype CacheRead<T> = Hit(value: T) | Miss | Failed(err: Error)

  // ---------- JSON codec ----------

  /** json.Marshal of a post detail: both embedded times must lie in years 0 to 9999. */
  function EncodePost(d: PostDetail): (r: Result<Payload>)
    ensures r.Ok? <==> JsonTime(d.post.createTime) && JsonTime(d.community.createTime)
    ensures r.Err? ==> r.error == MarshalFailed
  {
    if JsonTime(d.post.createTime) && JsonTime(d.community.createTime) then Ok(PostJson(d)) else Err(MarshalFailed)
  }

  /** The user is cached with its password cleared; a user marshals always. */
  function EncodeUser(u: User): Result<Payload> {
    Ok(UserJson(u.(password := "")))
  }

  function EncodeCommunity(c: CommunityDetail): (r: Result<Payload>)
    ensures r.Ok? <==> JsonTime(c.createTime)
    ensures r.Err? ==> r.error == MarshalFailed
  {
    if JsonTime(c.createTime) then Ok(CommunityJson(c)) else Err(MarshalFailed)
  }

  function DecodePost(p: Payload): Option<PostDetail> {
    if p.PostJson? then Some(p.detail) else None
  }

  function DecodeUser(p: Payload): Option<User> {
    if p.UserJson? then Some(p.user) else None
  }

  function DecodeCommunity(p: Payload): Option<CommunityDetail> {
    if p.CommunityJson? then Some(p.community) else None
  }

  /** Decoding an encoded record gives it back, except that a user comes back without
      its password; a stored user therefore never carries one. */
  lemma CodecRoundTrip(d: PostDetail, u: User, c: CommunityDetail)
    ensures EncodePost(d).Ok? ==> DecodePost(EncodePost(d).value) == Some(d)
    ensures DecodeUser(EncodeUser(u).value) == Some(u.(password := ""))
    ensures DecodeUser(EncodeUser(u).value).value.password == ""
    ensures EncodeCommunity(c).Ok? ==> DecodeCommunity(EncodeCommunity(c).value) == Some(c)
  {
  }

  // ---------- keys ----------

  function PostKey(postID: int): string { CacheKey(KeyPostDetailPF, postID) }
  function UserKey(userID: int): string { CacheKey(KeyUserInfoPF, userID) }
  function CommunityKey(communityID: int): string { CacheKey(KeyCommunityInfoPF, communityID) }

  // ---------- single get / set ----------

  /** What a GET reply means to the cache: nil is a miss, a transport error or an
      undecodable value is an error. */
  function Interpret<T>(reply: Reply, decode: Payload -> Option<T>): (r: CacheRead<T>)
    ensures reply == Failure ==> r == Failed(Backend)
    ensures reply == Nil ==> r == Miss
    ensures reply.Value? && decode(reply.payload).Some? ==> r == Hit(decode(reply.payload).value)
    ensures reply.Value? && decode(reply.payload).None? ==> r == Failed(UnmarshalFailed)
  {
    match reply
    case Failure => Failed(Backend)
    case Nil => Miss
    case Value(p) => match decode(p) { case Some(v) => Hit(v) case None => Failed(UnmarshalFailed) }
  }

  /** The lookup of `key` against the server state. */
  function Lookup<T>(s: State, online: bool, key: string, now: int, decode: Payload -> Option<T>): CacheRead<T> {
    Interpret(ReadReply(s, online, key, now), decode)
  }

  method GetFromCache<T>(c: Client, stats: CacheStats, key: string, now: int, decode: Payload -> Option<T>) returns (r: CacheRead<T>)
    modifies stats
    ensures r == Lookup(c.state, c.online, key, now, decode)
    ensures stats.hitCount == old(stats.hitCount) + (if r.Hit? then 1 else 0)
    ensures stats.missCount == old(stats.missCount) + (if r.Miss? then 1 else 0)
    ensures stats.errorCount == old(stats.errorCount) + (if r.Failed? then 1 else 0)
  {
    r := Interpret(c.Get(key, now), decode);
    stats.Record(r);
  }

  method GetPostDetailFromCache(c: Client, stats: CacheStats, postID: int, now: int) returns (r: CacheRead<PostDetail>)
    modifies stats
    ensures r == Lookup(c.state, c.online, PostKey(postID), now, DecodePost)
    ensures stats.hitCount == old(stats.hitCount) + (if r.Hit? then 1 else 0)
    ensures stats.missCount == old(stats.missCount) + (if r.Miss? then 1 else 0)
    ensures stats.errorCount == old(stats.errorCount) + (if r.Failed? then 1 else 0)
  {
    r := GetFromCache(c, stats, PostKey(postID), now, DecodePost);
  }

  method GetUserFromCache(c: Client, stats: CacheStats, userID: int, now: int) returns (r: CacheRead<User>)
    modifies stats
    ensures r == Lookup(c.state, c.online, UserKey(userID), now, DecodeUser)
    ensures stats.hitCount == old(stats.hitCount) + (if r.Hit? then 1 else 0)
    ensures stats.missCount == old(stats.missCount) + (if r.Miss? then 1 else 0)
    ensures stats.errorCount == old(stats.errorCount) + (if r.Failed? then 1 else 0)
  {
    r := GetFromCache(c, stats, UserKey(userID), now, DecodeUser);
  }

  method GetCommunityFromCache(c: Client, stats: CacheStats, communityID: int, now: int) returns (r: CacheRead<CommunityDetail>)
    modifies stats
    ensures r == Lookup(c.state, c.online, CommunityKey(communityID), now, DecodeCommunity)
    ensures stats.hitCount == old(stats.hitCount) + (if r.Hit? then 1 else 0)
    ensures stats.missCount == old(stats.missCount) + (if r.Miss? then 1 else 0)
    ensures stats.errorCount == old(stats.errorCount) + (if r.Failed? then 1 else 0)
  {
    r := GetFromCache(c, stats, CommunityKey(communityID), now, DecodeCommunity);
  }

  /** Marshal, then SET key value EX ttl; a marshal error returns before Redis is touched. */
  method SetToCache(c: Client, key: string, encoded: Result<Payload>, ttl: nat, now: int) returns (err: Option<Error>)
    modifies c
    ensures c.online == old(c.online)
    ensures encoded.Err? ==> err == Some(encoded.error) && c.state == old(c.state)
    ensures encoded.Ok? ==> err == (if c.online then None else Some(Backend))
    ensures encoded.Ok? && c.online ==> c.state == Apply(old(c.state), now, SetCmd(key, encoded.value, ttl))
    ensures encoded.Ok? && !c.online ==> c.state == old(c.state)
  {
    if encoded.Err? {
      return Some(encoded.error);
    }
    err := c.Exec([SetCmd(key, encoded.value, ttl)], now);
    assert [SetCmd(key, encoded.value, ttl)][..0] == [];
  }

  method SetPostDetailToCache(c: Client, postID: int, d: PostDetail, now: int) returns (err: Option<Error>)
    modifies c
    ensures c.online == old(c.online)
    ensures EncodePost(d).Err? ==> err == Some(MarshalFailed) && c.state == old(c.state)
    ensures EncodePost(d).Ok? ==> err == (if c.online then None else Some(Backend))
    ensures EncodePost(d).Ok? && c.online ==> c.state == Apply(old(c.state), now, SetCmd(PostKey(postID), PostJson(d), PostDetailCacheExpire))
    ensures EncodePost(d).Ok? && !c.online ==> c.state == old(c.state)
  {
    err := SetToCache(c, PostKey(postID), EncodePost(d), PostDetailCacheExpire, now);
  }

  method SetUserToCache(c: Client, userID: int, u: User, now: int) returns (err: Option<Error>)
    modifies c
    ensures c.online == old(c.online)
    ensures err == (if c.online then None else Some(Backend))
    ensures c.online ==> c.state == Apply(old(c.state), now, SetCmd(UserKey(userID), UserJson(u.(password := "")), UserInfoCacheExpire))
    ensures !c.online ==> c.state == old(c.state)
  {
    err := SetToCache(c, UserKey(userID), EncodeUser(u), UserInfoCacheExpire, now);
  }

  method SetCommunityToCache(c: Client, communityID: int, cd: CommunityDetail, now: int) returns (err: Option<Error>)
    modifies c
    ensures c.online == old(c.online)
    ensures EncodeCommunity(cd).Err? ==> err == Some(MarshalFailed) && c.state == old(c.state)
    ensures EncodeCommunity(cd).Ok? ==> err == (if c.online then None else Some(Backend))
    ensures EncodeCommunity(cd).Ok? && c.online ==> c.state == Apply(old(c.state), now, SetCmd(CommunityKey(communityID), CommunityJson(cd), CommunityInfoCacheExpire))
    ensures EncodeCommunity(cd).Ok? && !c.online ==> c.state == old(c.state)
  {
    err := SetToCache(c, CommunityKey(communityID), EncodeCommunity(cd), CommunityInfoCacheExpire, now);
  }

  /** DEL key */
  method DeleteFromCache(c: Client, key: string, now: int) returns (err: Option<Error>)
    modifies c
    ensures c.online == old(c.online)
    ensures err == (if c.online then None else Some(Backend))
    ensures c.state == (if c.online then Apply(old(c.state), now, DelCmd(key)) else old(c.state))
  {
    err := c.Exec([DelCmd(key)], now);
    assert [DelCmd(key)][..0] == [];
  }

  method DeletePostCache(c: Client, postID: int, now: int) returns (err: Option<Error>)
    modifies c
    ensures c.online == old(c.online)
    ensures err == (if c.online then None else Some(Backend))
    ensures c.state == (if c.online then Apply(old(c.state), now, DelCmd(PostKey(postID))) else old(c.state))
  {
    err := DeleteFromCache(c, PostKey(postID), now);
  }

  method DeleteUserCache(c: Client, userID: int, now: int) returns (err: Option<Error>)
    modifies c
    ensures c.online == old(c.online)
    ensures err == (if c.online then None else Some(Backend))
    ensures c.state == (if c.online then Apply(old(c.state), now, DelCmd(UserKey(userID))) else old(c.state))
  {
    err := DeleteFromCache(c, UserKey(userID), now);
  }

  method DeleteCommunityCache(c: Client, communityID: int, now: int) returns (err: Option<Error>)
    modifies c
    ensures c.online == old(c.online)
    ensures err == (if c.online then None else Some(Backend))
    ensures c.state == (if c.online then Apply(old(c.state), now, DelCmd(CommunityKey(communityID))) else old(c.state))
  {
    err := DeleteFromCache(c, CommunityKey(communityID), now);
  }

  // ---------- what a set means to a later get ----------

  /** A record written to the cache is read back as written (a user without its
      password) until its expiry, and is a miss from the expiry on. */
  lemma SetThenGet<T>(s: State, key: string, v: T, p: Payload, ttl: nat, now: int, t: int, decode: Payload -> Option<T>)
    requires decode(p) == Some(v)
    ensures now <= t < now + ttl ==> Lookup(Apply(s, now, SetCmd(key, p, ttl)), true, key, t, decode) == Hit(v)
    ensures t >= now + ttl ==> Lookup(Apply(s, now, SetCmd(key, p, ttl)), true, key, t, decode) == Miss
  {
  }

  /** The three kinds' round trips, with their expiries. */
  lemma CacheRoundTrips(s: State, postID: int, d: PostDetail, userID: int, u: User, communityID: int, cd: CommunityDetail, now: int, t: int)
    requires now <= t
    ensures EncodePost(d).Ok? && t < now + PostDetailCacheExpire ==>
      Lookup(Apply(s, now, SetCmd(PostKey(postID), EncodePost(d).value, PostDetailCacheExpire)), true, PostKey(postID), t, DecodePost) == Hit(d)
    ensures t < now + UserInfoCacheExpire ==>
      Lookup(Apply(s, now, SetCmd(UserKey(userID), EncodeUser(u).value, UserInfoCacheExpire)), true, UserKey(userID), t, DecodeUser) == Hit(u.(password := ""))
    ensures EncodeCommunity(cd).Ok? && t < now + CommunityInfoCacheExpire ==>
      Lookup(Apply(s, now, SetCmd(CommunityKey(communityID), EncodeCommunity(cd).value, CommunityInfoCacheExpire)), true, CommunityKey(communityID), t, DecodeCommunity) == Hit(cd)
  {
    if EncodePost(d).Ok? {
      SetThenGet(s, PostKey(postID), d, EncodePost(d).value, PostDetailCacheExpire, now, t, DecodePost);
    }
    SetThenGet(s, UserKey(userID), u.(password := ""), EncodeUser(u).value, UserInfoCacheExpire, now, t, DecodeUser);
    if EncodeCommunity(cd).Ok? {
      SetThenGet(s, CommunityKey(communityID), cd, EncodeCommunity(cd).value, CommunityInfoCacheExpire, now, t, DecodeCommunity);
    }
  }

  /** After a delete the entry is a miss. */
  lemma DeleteThenGet<T>(s: State, key: string, now: int, t: int, decode: Payload -> Option<T>)
    ensures Lookup(Apply(s, now, DelCmd(key)), true, key, t, decode) == Miss
  {
  }

  /** Writing or deleting one cache entry leaves the lookup of every other key as it was;
      in particular entries of different kinds, or of different ids, never disturb each other. */
  lemma OtherKeysUnaffected<T>(s: State, key: string, other: string, p: Payload, ttl: nat, now: int, t: int, decode: Payload -> Option<T>)
    requires key != other
    ensures Lookup(Apply(s, now, SetCmd(key, p, ttl)), true, other, t, decode) == Lookup(s, true, other, t, decode)
    ensures Lookup(Apply(s, now, DelCmd(key)), true, other, t, decode) == Lookup(s, true, other, t, decode)
  {
  }

  /** Post, user and community entries, and cache locks, live under pairwise distinct keys,
      and two different ids of one kind have different keys. */
  lemma CacheKeysDistinct(a: int, b: int, resourceID: string)
    ensures PostKey(a) != UserKey(b) && PostKey(a) != CommunityKey(b) && UserKey(a) != CommunityKey(b)
    ensures PostKey(a) != LockKey(resourceID) && UserKey(a) != LockKey(resourceID) && CommunityKey(a) != LockKey(resourceID)
    ensures a != b ==> PostKey(a) != PostKey(b) && UserKey(a) != UserKey(b) && CommunityKey(a) != CommunityKey(b)
  {
    CacheKindsNeverCollide(0, 1, Decimal(a), Decimal(b));
    CacheKindsNeverCollide(0, 2, Decimal(a), Decimal(b));
    CacheKindsNeverCollide(1, 2, Decimal(a), Decimal(b));
    CacheKindsNeverCollide(0, 3, Decimal(a), resourceID);
    CacheKindsNeverCollide(1, 3, Decimal(a), resourceID);
    CacheKindsNeverCollide(2, 3, Decimal(a), resourceID);
    if a != b {
      if PostKey(a) == PostKey(b) { CacheKeyInjective(KeyPostDetailPF, a, b); }
      if UserKey(a) == UserKey(b) { CacheKeyInjective(KeyUserInfoPF, a, b); }
      if CommunityKey(a) == CommunityKey(b) { CacheKeyInjective(KeyCommunityInfoPF, a, b); }
    }
  }

  // ---------- batch get ----------

  /** Tallies of lookup outcomes. */
  datatype Counts = Counts(hits: nat, misses: nat, errors: nat)

  /** The outcome of each id's lookup, position by position. */
  function Outcomes<T>(s: State, prefix: string, ids: seq<int>, now: int, decode: Payload -> Option<T>): (outs: seq<CacheRead<T>>)
    ensures |outs| == |ids|
    ensures forall i :: 0 <= i < |ids| ==> outs[i] == Lookup(s, true, CacheKey(prefix, ids[i]), now, decode)
  {
    seq(|ids|, i requires 0 <= i < |ids| => Lookup(s, true, CacheKey(prefix, ids[i]), now, decode))
  }

  /** The ids whose lookup did not hit, in request order (a miss or an undecodable value). */
  function MissedOf<T>(ids: seq<int>, outs: seq<CacheRead<T>>): seq<int>
    requires |ids| == |outs|
  {
    if ids == [] then []
    else MissedOf(ids[..|ids| - 1], outs[..|ids| - 1]) + (if outs[|ids| - 1].Hit? then [] else [ids[|ids| - 1]])
  }

  /** The ids whose lookup hit, with the decoded values. */
  function HitsOf<T>(ids: seq<int>, outs: seq<CacheRead<T>>): map<int, T>
    requires |ids| == |outs|
  {
    if ids == [] then map[]
    else
      var m := HitsOf(ids[..|ids| - 1], outs[..|ids| - 1]);
      if outs[|ids| - 1].Hit? then m[ids[|ids| - 1] := outs[|ids| - 1].value] else m
  }

  function Tally<T>(outs: seq<CacheRead<T>>): Counts {
    if outs == [] then Counts(0, 0, 0)
    else
      var c := Tally(outs[..|outs| - 1]);
      var o := outs[|outs| - 1];
      Counts(c.hits + (if o.Hit? then 1 else 0), c.misses + (if o.Miss? then 1 else 0), c.errors + (if o.Failed? then 1 else 0))
  }

  /** Equal ids look up the same key, hence have the same outcome. */
  ghost predicate Coherent<T>(ids: seq<int>, outs: seq<CacheRead<T>>) {
    |ids| == |outs| && forall i, j :: 0 <= i < |ids| && 0 <= j < |ids| && ids[i] == ids[j] ==> outs[i] == outs[j]
  }

  lemma OutcomesCoherent<T>(s: State, prefix: string, ids: seq<int>, now: int, decode: Payload -> Option<T>)
    ensures Coherent(ids, Outcomes(s, prefix, ids, now, decode))
  {
  }

  /** A requested id is among the hits exactly when its lookup hit, with the value
      that lookup decoded, and the hits hold no id that was not requested. */
  lemma {:induction false} HitsSpec<T>(ids: seq<int>, outs: seq<CacheRead<T>>)
    requires Coherent(ids, outs)
    ensures forall i :: 0 <= i < |ids| ==> (outs[i].Hit? <==> ids[i] in HitsOf(ids, outs))
    ensures forall i :: 0 <= i < |ids| && outs[i].Hit? ==> HitsOf(ids, outs)[ids[i]] == outs[i].value
    ensures forall id :: id in HitsOf(ids, outs) ==> id in ids
    decreases |ids|
  {
    if ids != [] {
      var n := |ids| - 1;
      var ids', outs' := ids[..n], outs[..n];
      HitsSpec(ids', outs');
      var h, h' := HitsOf(ids, outs), HitsOf(ids', outs');
      assert h == if outs[n].Hit? then h'[ids[n] := outs[n].value] else h';
      forall i | 0 <= i < n
        ensures (outs[i].Hit? <==> ids[i] in h) && (outs[i].Hit? ==> h[ids[i]] == outs[i].value)
      {
        assert ids'[i] == ids[i] && outs'[i] == outs[i];
        if ids[i] == ids[n] {
          assert outs[i] == outs[n];
        }
      }
      forall id | id in h ensures id in ids {
        if id != ids[n] {
          assert id in h';
          var i :| 0 <= i < n && ids'[i] == id;
          assert ids[i] == id;
        }
      }
    }
  }

  /** A requested id is among the missed ids exactly when its lookup did not hit, and
      the missed list holds only requested ids. */
  lemma {:induction false} MissedSpec<T>(ids: seq<int>, outs: seq<CacheRead<T>>)
    requires Coherent(ids, outs)
    ensures forall i :: 0 <= i < |ids| ==> (!outs[i].Hit? <==> ids[i] in MissedOf(ids, outs))
    ensures forall id :: id in MissedOf(ids, outs) ==> id in ids
    decreases |ids|
  {
    if ids != [] {
      var n := |ids| - 1;
      var ids', outs' := ids[..n], outs[..n];
      MissedSpec(ids', outs');
      var m, m' := MissedOf(ids, outs), MissedOf(ids', outs');
      assert m == m' + (if outs[n].Hit? then [] else [ids[n]]);
      forall i | 0 <= i < n
        ensures !outs[i].Hit? <==> ids[i] in m
      {
        assert ids'[i] == ids[i] && outs'[i] == outs[i];
        if ids[i] == ids[n] {
          assert outs[i] == outs[n];
        }
      }
      forall id | id in m ensures id in ids {
        if id != ids[n] {
          assert id in m';
          var i :| 0 <= i < n && ids'[i] == id;
          assert ids[i] == id;
        }
      }
    }
  }

  /** Every lookup is counted exactly once, and each one that did not hit adds one missed id. */
  lemma {:induction false} TallySpec<T>(ids: seq<int>, outs: seq<CacheRead<T>>)
    requires |ids| == |outs|
    ensures Tally(outs).hits + Tally(outs).misses + Tally(outs).errors == |ids|
    ensures |MissedOf(ids, outs)| == Tally(outs).misses + Tally(outs).errors
    decreases |ids|
  {
    if ids != [] {
      TallySpec(ids[..|ids| - 1], outs[..|ids| - 1]);
    }
  }

  /** Extending the request by one id extends the hits, the missed list and the tallies by its outcome. */
  lemma BatchStep<T>(ids: seq<int>, outs: seq<CacheRead<T>>, i: nat)
    requires |ids| == |outs| && i < |ids|
    ensures HitsOf(ids[..i + 1], outs[..i + 1]) ==
      if outs[i].Hit? then HitsOf(ids[..i], outs[..i])[ids[i] := outs[i].value] else HitsOf(ids[..i], outs[..i])
    ensures MissedOf(ids[..i + 1], outs[..i + 1]) == MissedOf(ids[..i], outs[..i]) + (if outs[i].Hit? then [] else [ids[i]])
    ensures Tally(outs[..i + 1]).hits == Tally(outs[..i]).hits + (if outs[i].Hit? then 1 else 0)
    ensures Tally(outs[..i + 1]).misses == Tally(outs[..i]).misses + (if outs[i].Miss? then 1 else 0)
    ensures Tally(outs[..i + 1]).errors == Tally(outs[..i]).errors + (if outs[i].Failed? then 1 else 0)
  {
    assert ids[..i + 1][..i] == ids[..i] && outs[..i + 1][..i] == outs[..i];
  }

  /** The outcome of one MGET reply. */
  function ReplyOutcome<T>(v: Option<Payload>, decode: Payload -> Option<T>): CacheRead<T> {
    match v
    case None => Miss
    case Some(p) => Interpret(Value(p), decode)
  }

  /** The MGET replies of a reachable server are the lookups of the requested keys. */
  lemma RepliesAreOutcomes<T>(s: State, prefix: string, ids: seq<int>, now: int, decode: Payload -> Option<T>, values: seq<Option<Payload>>)
    requires |values| == |ids|
    requires forall i :: 0 <= i < |ids| ==> values[i] == Live(s, CacheKey(prefix, ids[i]), now)
    ensures forall i :: 0 <= i < |ids| ==> ReplyOutcome(values[i], decode) == Outcomes(s, prefix, ids, now, decode)[i]
  {
  }

  /** MGET of the keys of all ids, then one decode per reply. An empty request issues
      no command; a transport error reports every id missed and counts one error. */
  method BatchGetFromCache<T>(c: Client, stats: CacheStats, prefix: string, ids: seq<int>, now: int, decode: Payload -> Option<T>)
    returns (cached: map<int, T>, missed: seq<int>, err: Option<Error>)
    modifies stats
    ensures ids == [] ==> cached == map[] && missed == [] && err == None && unchanged(stats)
    ensures ids != [] && !c.online ==> (cached == map[] && missed == ids && err == Some(Backend)
      && stats.errorCount == old(stats.errorCount) + 1
      && stats.hitCount == old(stats.hitCount) && stats.missCount == old(stats.missCount))
    ensures ids != [] && c.online ==> (err == None
      && var outs := Outcomes(c.state, prefix, ids, now, decode);
      && cached == HitsOf(ids, outs) && missed == MissedOf(ids, outs)
      && stats.hitCount == old(stats.hitCount) + Tally(outs).hits
      && stats.missCount == old(stats.missCount) + Tally(outs).misses
      && stats.errorCount == old(stats.errorCount) + Tally(outs).errors)
  {
    if |ids| == 0 {
      return map[], [], None;
    }
    var keys := seq(|ids|, i requires 0 <= i < |ids| => CacheKey(prefix, ids[i]));
    var values := c.MGet(keys, now);
    if values.None? {
      stats.errorCount := stats.errorCount + 1;
      return map[], ids, Some(Backend);
    }
    ghost var outs := Outcomes(c.state, prefix, ids, now, decode);
    RepliesAreOutcomes(c.state, prefix, ids, now, decode, values.value);
    cached, missed := DecodeReplies(stats, ids, values.value, decode, outs);
    err := None;
  }

  /** The loop over the MGET replies: each hit is collected, each other outcome adds its
      id to the missed list, and each is counted once. */
  method DecodeReplies<T>(stats: CacheStats, ids: seq<int>, values: seq<Option<Payload>>, decode: Payload -> Option<T>, ghost outs: seq<CacheRead<T>>)
    returns (cached: map<int, T>, missed: seq<int>)
    requires |values| == |ids| == |outs|
    requires forall i :: 0 <= i < |ids| ==> ReplyOutcome(values[i], decode) == outs[i]
    modifies stats
    ensures cached == HitsOf(ids, outs) && missed == MissedOf(ids, outs)
    ensures stats.hitCount == old(stats.hitCount) + Tally(outs).hits
    ensures stats.missCount == old(stats.missCount) + Tally(outs).misses
    ensures stats.errorCount == old(stats.errorCount) + Tally(outs).errors
  {
    cached, missed := map[], [];
    var i := 0;
    while i < |ids|
      invariant 0 <= i <= |ids|
      invariant cached == HitsOf(ids[..i], outs[..i]) && missed == MissedOf(ids[..i], outs[..i])
      invariant stats.hitCount == old(stats.hitCount) + Tally(outs[..i]).hits
      invariant stats.missCount == old(stats.missCount) + Tally(outs[..i]).misses
      invariant stats.errorCount == old(stats.errorCount) + Tally(outs[..i]).errors
    {
      var r := ReplyOutcome(values[i], decode);
      BatchStep(ids, outs, i);
      if r.Hit? {
        cached := cached[ids[i] := r.value];
      } else {
        missed := missed + [ids[i]];
      }
      stats.Record(r);
      i := i + 1;
    }
    assert ids[..i] == ids && outs[..i] == outs;
  }

  method BatchGetUsersFromCache(c: Client, stats: CacheStats, userIDs: seq<int>, now: int)
    returns (cached: map<int, User>, missed: seq<int>, err: Option<Error>)
    modifies stats
    ensures userIDs == [] ==> cached == map[] && missed == [] && err == None && unchanged(stats)
    ensures userIDs != [] && !c.online ==> (cached == map[] && missed == userIDs && err == Some(Backend)
      && stats.errorCount == old(stats.errorCount) + 1
      && stats.hitCount == old(stats.hitCount) && stats.missCount == old(stats.missCount))
    ensures userIDs != [] && c.online ==> (err == None
      && var outs := Outcomes(c.state, KeyUserInfoPF, userIDs, now, DecodeUser);
      && cached == HitsOf(userIDs, outs) && missed == MissedOf(userIDs, outs)
      && stats.hitCount == old(stats.hitCount) + Tally(outs).hits
      && stats.missCount == old(stats.missCount) + Tally(outs).misses
      && stats.errorCount == old(stats.errorCount) + Tally(outs).errors)
  {
    cached, missed, err := BatchGetFromCache(c, stats, KeyUserInfoPF, userIDs, now, DecodeUser);
  }

  method BatchGetCommunitiesFromCache(c: Client, stats: CacheStats, communityIDs: seq<int>, now: int)
    returns (cached: map<int, CommunityDetail>, missed: seq<int>, err: Option<Error>)
    modifies stats
    ensures communityIDs == [] ==> cached == map[] && missed == [] && err == None && unchanged(stats)
    ensures communityIDs != [] && !c.online ==> (cached == map[] && missed == communityIDs && err == Some(Backend)
      && stats.errorCount == old(stats.errorCount) + 1
      && stats.hitCount == old(stats.hitCount) && stats.missCount == old(stats.missCount))
    ensures communityIDs != [] && c.online ==> (err == None
      && var outs := Outcomes(c.state, KeyCommunityInfoPF, communityIDs, now, DecodeCommunity);
      && cached == HitsOf(communityIDs, outs) && missed == MissedOf(communityIDs, outs)
      && stats.hitCount == old(stats.hitCount) + Tally(outs).hits
      && stats.missCount == old(stats.missCount) + Tally(outs).misses
      && stats.errorCount == old(stats.errorCount) + Tally(outs).errors)
  {
    cached, missed, err := BatchGetFromCache(c, stats, KeyCommunityInfoPF, communityIDs, now, DecodeCommunity);
  }

  // ---------- batch set ----------

  /** The entries that marshal; the others are skipped. */
  function Encodable<V>(m: map<int, V>, encode: V -> Result<Payload>): (e: map<int, Payload>)
    ensures e.Keys == set id | id in m && encode(m[id]).Ok?
    ensures forall id :: id in e ==> e[id] == encode(m[id]).value
  {
    map id | id in m && encode(m[id]).Ok? :: encode(m[id]).value
  }

  ghost predicate Injective(keyOf: int -> string) {
    forall a, b :: keyOf(a) == keyOf(b) ==> a == b
  }

  /** Distinct ids of one kind have distinct cache keys. */
  lemma KeysInjective()
    ensures Injective(PostKey) && Injective(UserKey) && Injective(CommunityKey)
  {
    forall a, b | UserKey(a) == UserKey(b) ensures a == b {
      CacheKeyInjective(KeyUserInfoPF, a, b);
    }
    forall a, b | PostKey(a) == PostKey(b) ensures a == b {
      CacheKeyInjective(KeyPostDetailPF, a, b);
    }
    forall a, b | CommunityKey(a) == CommunityKey(b) ensures a == b {
      CacheKeyInjective(KeyCommunityInfoPF, a, b);
    }
  }

  /** `after` is `before` with the batch written: each id's key holds its payload with
      the batch's expiry, and every key that is no id's key is as it was. */
  ghost predicate BatchWritten(before: map<string, Entry>, after: map<string, Entry>, keyOf: int -> string,
                               batch: map<int, Payload>, expiresAt: int) {
    && (forall id :: id in batch ==> keyOf(id) in after && after[keyOf(id)] == Entry(batch[id], expiresAt))
    && (forall k :: (forall id :: id in batch ==> keyOf(id) != k) ==>
          (k in after <==> k in before) && (k in before ==> after[k] == before[k]))
  }

  /** One pipeline of SETs, one per record that marshals; an empty batch is a no-op even
      when Redis is down, a pipeline left empty because no record marshals makes no round
      trip and reports no error, and a failed Exec writes nothing. Distinct ids have distinct
      keys, so the order in which the map is walked does not matter. */
  method BatchSetToCache<V>(c: Client, keyOf: int -> string, m: map<int, V>, encode: V -> Result<Payload>, ttl: nat, now: int) returns (err: Option<Error>)
    requires Injective(keyOf)
    modifies c
    ensures c.online == old(c.online)
    ensures |m| == 0 ==> err == None && c.state == old(c.state)
    ensures |m| != 0 ==> err == (if c.online || Encodable(m, encode) == map[] then None else Some(Backend))
    ensures c.state.zsets == old(c.state).zsets && c.state.sets == old(c.state).sets
    ensures |m| != 0 && c.online ==>
      BatchWritten(old(c.state).strings, c.state.strings, keyOf, Encodable(m, encode), now + ttl)
    ensures !c.online ==> c.state == old(c.state)
  {
    if |m| == 0 {
      return None;
    }
    var cmds := SetCommands(c.state.strings, keyOf, m, encode, ttl, now);
    ApplyAllSets(c.state, now, cmds);
    err := c.Exec(cmds, now);
  }

  /** `acc` holds the payload of every id already visited (not in `todo`) that marshals, and nothing else. */
  ghost predicate Collected<V>(m: map<int, V>, encode: V -> Result<Payload>, todo: set<int>, acc: map<int, Payload>) {
    && (forall id :: id in acc ==> id in m && id !in todo && encode(m[id]) == Ok(acc[id]))
    && (forall id :: id in m && id !in todo && encode(m[id]).Ok? ==> id in acc)
  }

  /** The pipeline is made of SETs and writes exactly the batch `acc`. */
  ghost predicate Writes(strings: map<string, Entry>, now: int, keyOf: int -> string, expiresAt: int,
                         acc: map<int, Payload>, cmds: seq<Cmd>) {
    AllSets(cmds) && BatchWritten(strings, WriteSets(strings, now, cmds), keyOf, acc, expiresAt)
  }

  /** The SET commands of one batch, one per record that marshals, in the order the map is walked. */
  method SetCommands<V>(ghost strings: map<string, Entry>, keyOf: int -> string, m: map<int, V>, encode: V -> Result<Payload>, ttl: nat, now: int)
    returns (cmds: seq<Cmd>)
    requires Injective(keyOf)
    ensures AllSets(cmds)
    ensures |cmds| == |Encodable(m, encode)|
    ensures BatchWritten(strings, WriteSets(strings, now, cmds), keyOf, Encodable(m, encode), now + ttl)
  {
    cmds := [];
    var todo := m.Keys;
    ghost var acc: map<int, Payload> := map[];
    while todo != {}
      invariant todo <= m.Keys
      invariant Collected(m, encode, todo, acc)
      invariant Writes(strings, now, keyOf, now + ttl, acc, cmds)
      invariant |cmds| == |acc|
      decreases |todo|
    {
      var id := Pick(todo);
      var enc := encode(m[id]);
      CollectedStep(m, encode, todo, acc, id);
      if enc.Ok? {
        WritesStep(strings, now, keyOf, ttl, acc, cmds, id, enc.value);
        cmds := cmds + [SetCmd(keyOf(id), enc.value, ttl)];
        acc := acc[id := enc.value];
      }
      todo := todo - {id};
    }
    EncodableFromParts(m, encode, acc);
  }

  lemma CollectedStep<V>(m: map<int, V>, encode: V -> Result<Payload>, todo: set<int>, acc: map<int, Payload>, id: int)
    requires id in m && id in todo
    requires Collected(m, encode, todo, acc)
    ensures id !in acc
    ensures encode(m[id]).Ok? ==> Collected(m, encode, todo - {id}, acc[id := encode(m[id]).value])
    ensures !encode(m[id]).Ok? ==> Collected(m, encode, todo - {id}, acc)
  {
  }

  lemma WritesStep(strings: map<string, Entry>, now: int, keyOf: int -> string, ttl: nat,
                   acc: map<int, Payload>, cmds: seq<Cmd>, id: int, p: Payload)
    requires Injective(keyOf) && id !in acc
    requires Writes(strings, now, keyOf, now + ttl, acc, cmds)
    ensures Writes(strings, now, keyOf, now + ttl, acc[id := p], cmds + [SetCmd(keyOf(id), p, ttl)])
  {
    WriteSetsSnoc(strings, now, cmds, keyOf(id), p, ttl);
    BatchWrittenStep(strings, WriteSets(strings, now, cmds), keyOf, acc, now + ttl, id, p);
  }

  /** Writing one more record, whose id is not yet in the batch, extends the batch. */
  lemma BatchWrittenStep(before: map<string, Entry>, after: map<string, Entry>, keyOf: int -> string,
                         batch: map<int, Payload>, expiresAt: int, id: int, p: Payload)
    requires Injective(keyOf) && id !in batch
    requires BatchWritten(before, after, keyOf, batch, expiresAt)
    ensures BatchWritten(before, after[keyOf(id) := Entry(p, expiresAt)], keyOf, batch[id := p], expiresAt)
  {
  }

  lemma EncodableFromParts<V>(m: map<int, V>, encode: V -> Result<Payload>, acc: map<int, Payload>)
    requires Collected(m, encode, {}, acc)
    ensures acc == Encodable(m, encode)
  {
    var e := Encodable(m, encode);
    forall id ensures id in acc <==> id in e {
      if id in m && encode(m[id]).Ok? {
        assert id in e.Keys;
      }
    }
    forall id | id in acc ensures acc[id] == e[id] {
      assert encode(m[id]) == Ok(acc[id]);
    }
  }

  method BatchSetUsersToCache(c: Client, users: map<int, User>, now: int) returns (err: Option<Error>)
    modifies c
    ensures c.online == old(c.online)
    ensures |users| == 0 ==> err == None && c.state == old(c.state)
    ensures |users| != 0 ==> err == (if c.online || Encodable(users, EncodeUser) == map[] then None else Some(Backend))
    ensures c.state.zsets == old(c.state).zsets && c.state.sets == old(c.state).sets
    ensures |users| != 0 && c.online ==>
      BatchWritten(old(c.state).strings, c.state.strings, UserKey, Encodable(users, EncodeUser), now + UserInfoCacheExpire)
    ensures !c.online ==> c.state == old(c.state)
  {
    KeysInjective();
    err := BatchSetToCache(c, UserKey, users, EncodeUser, UserInfoCacheExpire, now);
  }

  method BatchSetCommunitiesToCache(c: Client, communities: map<int, CommunityDetail>, now: int) returns (err: Option<Error>)
    modifies c
    ensures c.online == old(c.online)
    ensures |communities| == 0 ==> err == None && c.state == old(c.state)
    ensures |communities| != 0 ==>
      err == (if c.online || Encodable(communities, EncodeCommunity) == map[] then None else Some(Backend))
    ensures c.state.zsets == old(c.state).zsets && c.state.sets == old(c.state).sets
    ensures |communities| != 0 && c.online ==>
      BatchWritten(old(c.state).strings, c.state.strings, CommunityKey, Encodable(communities, EncodeCommunity), now + CommunityInfoCacheExpire)
    ensures !c.online ==> c.state == old(c.state)
  {
    KeysInjective();
    err := BatchSetToCache(c, CommunityKey, communities, EncodeCommunity, CommunityInfoCacheExpire, now);
  }

  /** After a batch write, every record of the batch that marshals is a hit until the
      expiry, and every key that is no id's key reads as before. */
  lemma BatchSetThenGet<V, T>(s: State, s': State, keyOf: int -> string, m: map<int, V>, encode: V -> Result<Payload>,
                              decode: Payload -> Option<T>, ttl: nat, now: int, t: int, id: int, other: string)
    requires BatchWritten(s.strings, s'.strings, keyOf, Encodable(m, encode), now + ttl)
    requires now <= t < now + ttl
    ensures id in m && encode(m[id]).Ok? ==>
      Lookup(s', true, keyOf(id), t, decode) == Interpret(Value(encode(m[id]).value), decode)
    ensures (forall j :: j in m ==> other != keyOf(j)) ==> Lookup(s', true, other, t, decode) == Lookup(s, true, other, t, decode)
  {
  }

  /** For users: a user of the batch reads back without its password, and a user the
      batch leaves out reads as before. */
  lemma BatchSetUsersThenGet(s: State, s': State, users: map<int, User>, now: int, t: int, userID: int)
    requires BatchWritten(s.strings, s'.strings, UserKey, Encodable(users, EncodeUser), now + UserInfoCacheExpire)
    requires now <= t < now + UserInfoCacheExpire
    ensures userID in users ==> Lookup(s', true, UserKey(userID), t, DecodeUser) == Hit(users[userID].(password := ""))
    ensures userID !in users ==> Lookup(s', true, UserKey(userID), t, DecodeUser) == Lookup(s, true, UserKey(userID), t, DecodeUser)
  {
    KeysInjective();
    BatchSetThenGet(s, s', UserKey, users, EncodeUser, DecodeUser, UserInfoCacheExpire, now, t, userID, UserKey(userID));
  }

  // ---------- stampede lock ----------

  /** The lock's value. */
  const LockValue := Text("1")

  /** TryLock as written: a plain SET with a 10-second expiry, whose reply is always
      "OK", so every attempt while Redis is up "acquires" the lock, held or not. */
  method TryLockAsWritten(c: Client, resourceID: string, now: int) returns (acquired: bool, err: Option<Error>)
    modifies c
    ensures c.online == old(c.online)
    ensures acquired <==> c.online
    ensures err == (if c.online then None else Some(Backend))
    ensures c.state == (if c.online then Apply(old(c.state), now, SetCmd(LockKey(resourceID), LockValue, CacheLockExpire)) else old(c.state))
  {
    err := c.Exec([SetCmd(LockKey(resourceID), LockValue, CacheLockExpire)], now);
    assert [SetCmd(LockKey(resourceID), LockValue, CacheLockExpire)][..0] == [];
    acquired := err.None?;
  }

  /** Two attempts one right after the other both get the lock as written: it excludes no one. */
  lemma AsWrittenLockExcludesNobody(s: State, resourceID: string, now: int)
    ensures var s1 := Apply(s, now, SetCmd(LockKey(resourceID), LockValue, CacheLockExpire));
      Live(s1, LockKey(resourceID), now).Some?
    ensures var s1 := Apply(s, now, SetCmd(LockKey(resourceID), LockValue, CacheLockExpire));
      Apply(s1, now, SetCmd(LockKey(resourceID), LockValue, CacheLockExpire)).strings[LockKey(resourceID)] == Entry(LockValue, now + CacheLockExpire)
  {
  }

  /** TryLock as its comment describes it: SET NX EX, acquired exactly when no live lock existed. */
  method TryLock(c: Client, resourceID: string, now: int) returns (acquired: bool, err: Option<Error>)
    modifies c
    ensures c.online == old(c.online)
    ensures acquired <==> c.online && Live(old(c.state), LockKey(resourceID), now).None?
    ensures err == (if c.online then None else Some(Backend))
    ensures c.state == (if c.online then Apply(old(c.state), now, SetNXCmd(LockKey(resourceID), LockValue, CacheLockExpire)) else old(c.state))
  {
    var free := c.Get(LockKey(resourceID), now) == Nil;
    err := c.Exec([SetNXCmd(LockKey(resourceID), LockValue, CacheLockExpire)], now);
    assert [SetNXCmd(LockKey(resourceID), LockValue, CacheLockExpire)][..0] == [];
    acquired := err.None? && free;
  }

  /** With SET NX the lock excludes: once taken, no other attempt gets it until it is
      released or its 10 seconds are up, and then the next attempt gets it. */
  lemma LockExcludes(s: State, resourceID: string, now: int, t: int)
    requires Live(s, LockKey(resourceID), now).None?
    ensures var s1 := Apply(s, now, SetNXCmd(LockKey(resourceID), LockValue, CacheLockExpire));
      && Live(s1, LockKey(resourceID), now).Some?
      && (now <= t < now + CacheLockExpire ==> Live(s1, LockKey(resourceID), t).Some? && Apply(s1, t, SetNXCmd(LockKey(resourceID), LockValue, CacheLockExpire)) == s1)
      && (t >= now + CacheLockExpire ==> Live(s1, LockKey(resourceID), t).None?)
      && Live(Apply(s1, t, DelCmd(LockKey(resourceID))), LockKey(resourceID), t).None?
  {
  }

  /** ReleaseLock: DEL of the lock key. */
  method ReleaseLock(c: Client, resourceID: string, now: int) returns (err: Option<Error>)
    modifies c
    ensures c.online == old(c.online)
    ensures err == (if c.online then None else Some(Backend))
    ensures c.state == (if c.online then Apply(old(c.state), now, DelCmd(LockKey(resourceID))) else old(c.state))
  {
    err := DeleteFromCache(c, LockKey(resourceID), now);
  }
}
